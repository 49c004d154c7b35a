/**
 * The dashboard policy of the holder app (`DashboardItemUtilImpl`): which
 * banners and affordances the overview shows for the stored green cards,
 * and how the overview's card items are regrouped so that all EU
 * vaccination cards appear as one item.
 *
 * The collaborators are parameters: `isExpired` (the green card utility),
 * `hasDeviation` (the clock deviation use case), the number of vaccination
 * events among the stored event groups, and whether the "green cards
 * synced" banner was dismissed (the persistence manager).
 */
module DashboardItemUtil {
  import opened Wrappers
  import opened GreenCards
  import opened Collections

  /** Kotlin's `all { p(it) }` over a list of green cards. */
  function All(cards: seq<GreenCard>, p: GreenCard -> bool): (r: bool)
    ensures r <==> forall i :: 0 <= i < |cards| ==> p(cards[i])
  {
    if cards == [] then true else p(cards[0]) && All(cards[1..], p)
  }

  /**
   * `isNotEmpty() || !all { isExpired }`. Since `all` holds of the empty
   * list, the second disjunct only matters when the first already holds:
   * the header depends on nothing but there being cards.
   */
  function ShouldShowHeaderItem(allGreenCards: seq<GreenCard>, isExpired: GreenCard -> bool): (r: bool)
    ensures r <==> allGreenCards != []
  {
    |allGreenCards| > 0 || !All(allGreenCards, isExpired)
  }

  function ShouldShowClockDeviationItem(
    allGreenCards: seq<GreenCard>, hasDeviation: bool, isExpired: GreenCard -> bool): (r: bool)
    ensures r <==> hasDeviation && allGreenCards != []
    ensures r ==> hasDeviation && ShouldShowHeaderItem(allGreenCards, isExpired)
  {
    hasDeviation && (|allGreenCards| > 0 || !All(allGreenCards, isExpired))
  }

  function ShouldShowPlaceholderItem(allGreenCards: seq<GreenCard>, isExpired: GreenCard -> bool): (r: bool)
    ensures r <==> forall i :: 0 <= i < |allGreenCards| ==> isExpired(allGreenCards[i])
  {
    |allGreenCards| == 0 || All(allGreenCards, isExpired)
  }

  function ShouldAddQrButtonItem(allGreenCards: seq<GreenCard>): (r: bool)
    ensures r <==> |allGreenCards| == 0
  {
    allGreenCards == []
  }

  /**
   * The overview always shows the header or the placeholder, and shows
   * both exactly when there are cards and every one of them has expired.
   * The add-QR button only comes with the placeholder.
   */
  lemma HeaderAndPlaceholder(allGreenCards: seq<GreenCard>, isExpired: GreenCard -> bool)
    ensures ShouldShowHeaderItem(allGreenCards, isExpired) || ShouldShowPlaceholderItem(allGreenCards, isExpired)
    ensures ShouldShowHeaderItem(allGreenCards, isExpired) && ShouldShowPlaceholderItem(allGreenCards, isExpired)
      <==> allGreenCards != [] && forall i :: 0 <= i < |allGreenCards| ==> isExpired(allGreenCards[i])
    ensures ShouldAddQrButtonItem(allGreenCards) ==> ShouldShowPlaceholderItem(allGreenCards, isExpired)
    ensures ShouldAddQrButtonItem(allGreenCards) ==> !ShouldShowHeaderItem(allGreenCards, isExpired)
  {
  }

  // ---------------------------------------------------------------------
  // The sync banners

  function CardTypeOf(card: GreenCard): GreenCardType
  {
    card.greenCardEntity.cardType
  }

  /** `origins.any { it.type is OriginType.Vaccination }` */
  function HasVaccinationOrigin(card: GreenCard): bool
  {
    exists i :: 0 <= i < |card.origins| && card.origins[i].originType == Vaccination
  }

  /** `filter { type is Eu }.filter { origins.any { type is Vaccination } }` */
  function EuVaccinationGreenCards(allGreenCards: seq<GreenCard>): seq<GreenCard>
  {
    FilterKey(FilterKey(allGreenCards, CardTypeOf, Eu), HasVaccinationOrigin, true)
  }

  /** Some card in the list is an EU vaccination card. */
  predicate SomeEuVaccination(cards: seq<GreenCard>)
  {
    exists i :: 0 <= i < |cards| && IsEuVaccination(cards[i])
  }

  /** Two distinct cards in the list are EU vaccination cards. */
  predicate TwoEuVaccinations(cards: seq<GreenCard>)
  {
    exists i, j :: 0 <= i < j < |cards| && IsEuVaccination(cards[i]) && IsEuVaccination(cards[j])
  }

  lemma SomeEuVaccinationCons(cards: seq<GreenCard>)
    requires cards != []
    ensures SomeEuVaccination(cards) <==> IsEuVaccination(cards[0]) || SomeEuVaccination(cards[1..])
  {
    if SomeEuVaccination(cards[1..]) {
      var k :| 0 <= k < |cards[1..]| && IsEuVaccination(cards[1..][k]);
      assert IsEuVaccination(cards[k + 1]);
    }
    if SomeEuVaccination(cards) && !IsEuVaccination(cards[0]) {
      var k :| 0 <= k < |cards| && IsEuVaccination(cards[k]);
      assert IsEuVaccination(cards[1..][k - 1]);
    }
  }

  lemma TwoEuVaccinationsCons(cards: seq<GreenCard>)
    requires cards != []
    ensures TwoEuVaccinations(cards) <==>
      (IsEuVaccination(cards[0]) && SomeEuVaccination(cards[1..])) || TwoEuVaccinations(cards[1..])
  {
    var tail := cards[1..];
    if TwoEuVaccinations(cards) {
      var i, j :| 0 <= i < j < |cards| && IsEuVaccination(cards[i]) && IsEuVaccination(cards[j]);
      assert IsEuVaccination(tail[j - 1]);
      if i > 0 {
        assert IsEuVaccination(tail[i - 1]);
      }
    }
    if IsEuVaccination(cards[0]) && SomeEuVaccination(tail) {
      var k :| 0 <= k < |tail| && IsEuVaccination(tail[k]);
      assert IsEuVaccination(cards[k + 1]);
    }
    if TwoEuVaccinations(tail) {
      var i, j :| 0 <= i < j < |tail| && IsEuVaccination(tail[i]) && IsEuVaccination(tail[j]);
      assert IsEuVaccination(cards[i + 1]) && IsEuVaccination(cards[j + 1]);
    }
  }

  /**
   * How many EU vaccination green cards the filter finds, stated over the
   * card list itself: none, or two at distinct positions.
   */
  lemma {:induction false} EuVaccinationCount(allGreenCards: seq<GreenCard>)
    ensures |EuVaccinationGreenCards(allGreenCards)| == 0 <==> !SomeEuVaccination(allGreenCards)
    ensures |EuVaccinationGreenCards(allGreenCards)| >= 2 <==> TwoEuVaccinations(allGreenCards)
  {
    if allGreenCards != [] {
      var tail := allGreenCards[1..];
      EuVaccinationCount(tail);
      SomeEuVaccinationCons(allGreenCards);
      TwoEuVaccinationsCons(allGreenCards);
      if IsEuVaccination(allGreenCards[0]) {
        assert EuVaccinationGreenCards(allGreenCards) == [allGreenCards[0]] + EuVaccinationGreenCards(tail);
      } else {
        assert EuVaccinationGreenCards(allGreenCards) == EuVaccinationGreenCards(tail);
      }
    }
  }

  /**
   * `shouldAddSyncGreenCardsItem`: with at most one vaccination event there
   * is nothing to upgrade; otherwise the banner shows exactly when there is
   * exactly one EU vaccination green card.
   */
  function ShouldAddSyncGreenCardsItem(vaccinationEventCount: nat, allGreenCards: seq<GreenCard>): (r: bool)
    ensures vaccinationEventCount <= 1 ==> !r
    ensures r <==> (vaccinationEventCount >= 2
      && SomeEuVaccination(allGreenCards) && !TwoEuVaccinations(allGreenCards))
  {
    EuVaccinationCount(allGreenCards);
    if 0 <= vaccinationEventCount <= 1 then false
    else |EuVaccinationGreenCards(allGreenCards)| == 1
  }

  /**
   * `shouldAddGreenCardsSyncedItem`: more than one EU vaccination green
   * card, and the banner was not dismissed.
   */
  function ShouldAddGreenCardsSyncedItem(allGreenCards: seq<GreenCard>, hasDismissedSyncedItem: bool): (r: bool)
    ensures r <==> !hasDismissedSyncedItem && TwoEuVaccinations(allGreenCards)
  {
    EuVaccinationCount(allGreenCards);
    |EuVaccinationGreenCards(allGreenCards)| > 1 && !hasDismissedSyncedItem
  }

  /** The upgrade banner and the synced banner never show together. */
  lemma SyncBannersExclusive(vaccinationEventCount: nat, allGreenCards: seq<GreenCard>, hasDismissedSyncedItem: bool)
    ensures !(ShouldAddSyncGreenCardsItem(vaccinationEventCount, allGreenCards)
              && ShouldAddGreenCardsSyncedItem(allGreenCards, hasDismissedSyncedItem))
  {
  }

  // ---------------------------------------------------------------------
  // Dashboard items and combineEuVaccinationItems

  /** One green card on the overview. */
  datatype CardItem = CardItem(greenCard: GreenCard)

  /**
   * The overview's items. Each variant is its own Kotlin class; items of
   * classes this policy does not decide about are `OtherItem`s, one class
   * per `className`.
   */
  datatype DashboardItem =
    | HeaderItem(text: string)
    | ClockDeviationItem
    | PlaceholderCardItem
    | AddQrButtonItem
    | GreenCardsSyncItem
    | GreenCardsSyncedItem
    | CardsItem(cards: seq<CardItem>)
    | OtherItem(className: string)

  /** The runtime class of an item (`it::class`). */
  datatype ItemClass =
    | HeaderClass | ClockDeviationClass | PlaceholderClass | AddQrButtonClass
    | SyncClass | SyncedClass | CardsClass | OtherClass(name: string)

  function ClassOf(item: DashboardItem): (c: ItemClass)
    ensures c == CardsClass <==> item.CardsItem?
  {
    match item
    case HeaderItem(_) => HeaderClass
    case ClockDeviationItem => ClockDeviationClass
    case PlaceholderCardItem => PlaceholderClass
    case AddQrButtonItem => AddQrButtonClass
    case GreenCardsSyncItem => SyncClass
    case GreenCardsSyncedItem => SyncedClass
    case CardsItem(_) => CardsClass
    case OtherItem(name) => OtherClass(name)
  }

  /**
   * `cards.first().greenCard.origins.first().type` of a cards item; `None`
   * for every other item, and where `first()` would throw.
   */
  function FirstOriginType(item: DashboardItem): (t: Option<OriginType>)
    ensures t.Some? ==> item.CardsItem?
  {
    if item.CardsItem? && item.cards != [] && item.cards[0].greenCard.origins != []
    then Some(item.cards[0].greenCard.origins[0].originType)
    else None
  }

  /** An item on which `combineEuVaccinationItems` does not throw. */
  predicate WellFormed(item: DashboardItem)
  {
    item.CardsItem? ==> item.cards != [] && item.cards[0].greenCard.origins != []
  }

  /** All cards of the cards items of `items`, in order. */
  function AllCards(items: seq<DashboardItem>): seq<CardItem>
  {
    if items == [] then []
    else (if items[0].CardsItem? then items[0].cards else []) + AllCards(items[1..])
  }

  /** One origin-type group of cards items: the vaccination group becomes a single item. */
  function MergeOriginGroup(group: seq<DashboardItem>): seq<DashboardItem>
    requires group != []
  {
    if FirstOriginType(group[0]) == Some(Vaccination) then [CardsItem(AllCards(group))] else group
  }

  function MergeOriginGroups(groups: seq<seq<DashboardItem>>): seq<DashboardItem>
    requires forall i :: 0 <= i < |groups| ==> groups[i] != []
  {
    if groups == [] then [] else MergeOriginGroup(groups[0]) + MergeOriginGroups(groups[1..])
  }

  /** The treatment of the group of all cards items. */
  function CombineCardsItems(cardsItems: seq<DashboardItem>): seq<DashboardItem>
  {
    MergeOriginGroups(GroupBy(cardsItems, FirstOriginType))
  }

  /** One class group: cards items are regrouped, any other group is kept as it is. */
  function ProcessClassGroup(group: seq<DashboardItem>): seq<DashboardItem>
    requires group != []
  {
    if !group[0].CardsItem? then group else CombineCardsItems(group)
  }

  function ProcessClassGroups(groups: seq<seq<DashboardItem>>): seq<DashboardItem>
    requires forall i :: 0 <= i < |groups| ==> groups[i] != []
  {
    if groups == [] then [] else ProcessClassGroup(groups[0]) + ProcessClassGroups(groups[1..])
  }

  /**
   * `combineEuVaccinationItems`; `None` stands for the exception that
   * `first()` throws on a cards item without cards or whose first card has
   * no origins.
   */
  function CombineEuVaccinationItems(items: seq<DashboardItem>): (r: Option<seq<DashboardItem>>)
    ensures r.Some? <==> forall i :: 0 <= i < |items| ==> WellFormed(items[i])
  {
    if forall i :: 0 <= i < |items| ==> WellFormed(items[i])
    then Some(ProcessClassGroups(GroupBy(items, ClassOf)))
    else None
  }

  // --- lemmas about combineEuVaccinationItems

  lemma {:induction false} AllCardsAppend(a: seq<DashboardItem>, b: seq<DashboardItem>)
    ensures AllCards(a + b) == AllCards(a) + AllCards(b)
  {
    if a == [] {
      assert a + b == b;
    } else {
      assert (a + b)[1..] == a[1..] + b;
      AllCardsAppend(a[1..], b);
    }
  }

  /** Items that are not cards items hold no cards. */
  lemma {:induction false} AllCardsOfCardsItems(items: seq<DashboardItem>)
    ensures AllCards(FilterKey(items, ClassOf, CardsClass)) == AllCards(items)
  {
    if items != [] {
      AllCardsOfCardsItems(items[1..]);
      if items[0].CardsItem? {
        assert FilterKey(items, ClassOf, CardsClass) == [items[0]] + FilterKey(items[1..], ClassOf, CardsClass);
        AllCardsAppend([items[0]], FilterKey(items[1..], ClassOf, CardsClass));
      }
    }
  }

  lemma {:induction false} AllCardsPartition<K>(items: seq<DashboardItem>, key: DashboardItem -> K, k: K)
    ensures multiset(AllCards(FilterKey(items, key, k))) + multiset(AllCards(FilterOutKey(items, key, k)))
         == multiset(AllCards(items))
  {
    if items != [] {
      AllCardsPartition(items[1..], key, k);
      var head := [items[0]];
      if key(items[0]) == k {
        AllCardsAppend(head, FilterKey(items[1..], key, k));
      } else {
        AllCardsAppend(head, FilterOutKey(items[1..], key, k));
      }
    }
  }

  /** What a subset of items selected by a finer key is, is the same before and after a coarser filter. */
  lemma {:induction false} FilterFiner<K1, K2>(
    items: seq<DashboardItem>, coarse: DashboardItem -> K1, c: K1, fine: DashboardItem -> K2, f: K2)
    requires forall x :: fine(x) == f ==> coarse(x) == c
    ensures FilterKey(FilterKey(items, coarse, c), fine, f) == FilterKey(items, fine, f)
  {
    if items != [] {
      FilterFiner(items[1..], coarse, c, fine, f);
    }
  }

  lemma {:induction false} MergedGroupsAreCardsItems(cardsItems: seq<DashboardItem>)
    requires forall x :: x in cardsItems ==> x.CardsItem?
    ensures forall x :: x in CombineCardsItems(cardsItems) ==> x.CardsItem?
    decreases |cardsItems|
  {
    if cardsItems != [] {
      var t := FirstOriginType(cardsItems[0]);
      var g0 := [cardsItems[0]] + FilterKey(cardsItems[1..], FirstOriginType, t);
      var rest := FilterOutKey(cardsItems[1..], FirstOriginType, t);
      GroupByCons(cardsItems, FirstOriginType);
      assert ([g0] + GroupBy(rest, FirstOriginType))[1..] == GroupBy(rest, FirstOriginType);
      MergedGroupsAreCardsItems(rest);
    }
  }

  /** The single item a vaccination group is merged into is again a vaccination item. */
  lemma MergedVaccinationGroup(group: seq<DashboardItem>)
    requires group != [] && group[0].CardsItem? && WellFormed(group[0])
    requires FirstOriginType(group[0]) == Some(Vaccination)
    ensures FirstOriginType(CardsItem(AllCards(group))) == Some(Vaccination)
  {
    assert AllCards(group) == group[0].cards + AllCards(group[1..]);
  }

  /** The origin types selected from a merged origin group. */
  lemma MergeOriginGroupByOrigin(cardsItems: seq<DashboardItem>, t: Option<OriginType>)
    requires cardsItems != []
    requires forall x :: x in cardsItems ==> x.CardsItem? && WellFormed(x)
    ensures var t0 := FirstOriginType(cardsItems[0]);
      var g0 := [cardsItems[0]] + FilterKey(cardsItems[1..], FirstOriginType, t0);
      && FilterKey(cardsItems, FirstOriginType, t0) == g0
      && FilterKey(MergeOriginGroup(g0), FirstOriginType, t) ==
           if t != t0 then []
           else if t0 == Some(Vaccination) then [CardsItem(AllCards(g0))]
           else g0
  {
    var t0 := FirstOriginType(cardsItems[0]);
    var g0 := [cardsItems[0]] + FilterKey(cardsItems[1..], FirstOriginType, t0);
    HeadGroup(cardsItems, FirstOriginType, t);
    if t0 == Some(Vaccination) {
      MergedVaccinationGroup(g0);
    }
  }

  /**
   * Within the cards items: every origin-type group other than vaccination
   * is kept as it was, and the vaccination group becomes one item holding
   * all its cards in input order.
   */
  lemma {:induction false} CombineCardsItemsByOrigin(cardsItems: seq<DashboardItem>, t: Option<OriginType>)
    requires forall x :: x in cardsItems ==> x.CardsItem? && WellFormed(x)
    ensures FilterKey(CombineCardsItems(cardsItems), FirstOriginType, t) ==
      if t != Some(Vaccination) then FilterKey(cardsItems, FirstOriginType, t)
      else if FilterKey(cardsItems, FirstOriginType, t) == [] then []
      else [CardsItem(AllCards(FilterKey(cardsItems, FirstOriginType, t)))]
    decreases |cardsItems|
  {
    if cardsItems != [] {
      var t0 := FirstOriginType(cardsItems[0]);
      var tail := cardsItems[1..];
      var g0 := [cardsItems[0]] + FilterKey(tail, FirstOriginType, t0);
      var rest := FilterOutKey(tail, FirstOriginType, t0);
      var restGroups := GroupBy(rest, FirstOriginType);
      GroupByCons(cardsItems, FirstOriginType);
      assert ([g0] + restGroups)[1..] == restGroups;
      assert CombineCardsItems(cardsItems) == MergeOriginGroup(g0) + CombineCardsItems(rest);
      FilterKeyAppend(MergeOriginGroup(g0), CombineCardsItems(rest), FirstOriginType, t);
      CombineCardsItemsByOrigin(rest, t);
      FilterKeyOfFilterOut(tail, FirstOriginType, t, t0);
      HeadGroup(cardsItems, FirstOriginType, t);
      MergeOriginGroupByOrigin(cardsItems, t);
    }
  }

  /** Merging moves cards between items but never adds or drops one. */
  lemma {:induction false} CombineCardsItemsKeepsCards(cardsItems: seq<DashboardItem>)
    ensures multiset(AllCards(CombineCardsItems(cardsItems))) == multiset(AllCards(cardsItems))
    decreases |cardsItems|
  {
    if cardsItems != [] {
      var t0 := FirstOriginType(cardsItems[0]);
      var tail := cardsItems[1..];
      var g0 := [cardsItems[0]] + FilterKey(tail, FirstOriginType, t0);
      var rest := FilterOutKey(tail, FirstOriginType, t0);
      var restGroups := GroupBy(rest, FirstOriginType);
      GroupByCons(cardsItems, FirstOriginType);
      assert ([g0] + restGroups)[1..] == restGroups;
      AllCardsAppend(MergeOriginGroup(g0), CombineCardsItems(rest));
      CombineCardsItemsKeepsCards(rest);
      if t0 == Some(Vaccination) {
        assert AllCards([CardsItem(AllCards(g0))]) == AllCards(g0);
      }
      AllCardsAppend([cardsItems[0]], FilterKey(tail, FirstOriginType, t0));
      AllCardsPartition(tail, FirstOriginType, t0);
    }
  }

  lemma {:induction false} FilterKeyAll(items: seq<DashboardItem>, c: ItemClass)
    requires forall x :: x in items ==> ClassOf(x) == c
    ensures FilterKey(items, ClassOf, c) == items
  {
    if items != [] {
      FilterKeyAll(items[1..], c);
    }
  }

  lemma {:induction false} FilterKeyNone(items: seq<DashboardItem>, c: ItemClass, c0: ItemClass)
    requires c != c0
    requires forall x :: x in items ==> ClassOf(x) == c0
    ensures FilterKey(items, ClassOf, c) == []
  {
    if items != [] {
      FilterKeyNone(items[1..], c, c0);
    }
  }

  /** The items of class `c` that the first class group contributes. */
  lemma ProcessFirstClassGroup(items: seq<DashboardItem>, c: ItemClass)
    requires items != []
    ensures var c0 := ClassOf(items[0]);
      var g0 := [items[0]] + FilterKey(items[1..], ClassOf, c0);
      FilterKey(ProcessClassGroup(g0), ClassOf, c) ==
        if c != c0 then []
        else if c0 == CardsClass then CombineCardsItems(g0)
        else g0
  {
    var c0 := ClassOf(items[0]);
    var g0 := [items[0]] + FilterKey(items[1..], ClassOf, c0);
    assert forall x :: x in g0 ==> ClassOf(x) == c0;
    if c0 == CardsClass {
      MergedGroupsAreCardsItems(g0);
    }
    if c == c0 {
      FilterKeyAll(ProcessClassGroup(g0), c0);
    } else {
      FilterKeyNone(ProcessClassGroup(g0), c, c0);
    }
  }

  /**
   * Per class: every class other than the cards items keeps exactly its
   * items in their input order; the cards items are replaced by
   * `CombineCardsItems` of the cards items.
   */
  lemma {:induction false} ProcessClassGroupsByClass(items: seq<DashboardItem>, c: ItemClass)
    ensures FilterKey(ProcessClassGroups(GroupBy(items, ClassOf)), ClassOf, c) ==
      if c == CardsClass then CombineCardsItems(FilterKey(items, ClassOf, CardsClass))
      else FilterKey(items, ClassOf, c)
    decreases |items|
  {
    if items == [] {
      assert GroupBy([], FirstOriginType) == [];
    } else {
      var c0 := ClassOf(items[0]);
      var tail := items[1..];
      var g0 := [items[0]] + FilterKey(tail, ClassOf, c0);
      var rest := FilterOutKey(tail, ClassOf, c0);
      var restGroups := GroupBy(rest, ClassOf);
      GroupByCons(items, ClassOf);
      assert ([g0] + restGroups)[1..] == restGroups;
      assert ProcessClassGroups(GroupBy(items, ClassOf)) == ProcessClassGroup(g0) + ProcessClassGroups(restGroups);
      FilterKeyAppend(ProcessClassGroup(g0), ProcessClassGroups(restGroups), ClassOf, c);
      ProcessClassGroupsByClass(rest, c);
      FilterKeyOfFilterOut(tail, ClassOf, c, c0);
      FilterKeyOfFilterOut(tail, ClassOf, CardsClass, c0);
      HeadGroup(items, ClassOf, c);
      HeadGroup(items, ClassOf, CardsClass);
      ProcessFirstClassGroup(items, c);
      assert GroupBy([], FirstOriginType) == [];
    }
  }

  lemma CombineKeepsOtherClasses(items: seq<DashboardItem>, c: ItemClass)
    requires forall i :: 0 <= i < |items| ==> WellFormed(items[i])
    requires c != CardsClass
    ensures FilterKey(CombineEuVaccinationItems(items).value, ClassOf, c) == FilterKey(items, ClassOf, c)
  {
    ProcessClassGroupsByClass(items, c);
  }

  lemma CombineKeepsCards(items: seq<DashboardItem>)
    requires forall i :: 0 <= i < |items| ==> WellFormed(items[i])
    ensures multiset(AllCards(CombineEuVaccinationItems(items).value)) == multiset(AllCards(items))
  {
    var out := CombineEuVaccinationItems(items).value;
    var cardsItems := FilterKey(items, ClassOf, CardsClass);
    ProcessClassGroupsByClass(items, CardsClass);
    AllCardsOfCardsItems(out);
    AllCardsOfCardsItems(items);
    CombineCardsItemsKeepsCards(cardsItems);
  }

  lemma CombineByOrigin(items: seq<DashboardItem>, t: Option<OriginType>)
    requires forall i :: 0 <= i < |items| ==> WellFormed(items[i])
    requires t.Some?
    ensures FilterKey(CombineEuVaccinationItems(items).value, FirstOriginType, t) ==
      if t != Some(Vaccination) then FilterKey(items, FirstOriginType, t)
      else if FilterKey(items, FirstOriginType, t) == [] then []
      else [CardsItem(AllCards(FilterKey(items, FirstOriginType, t)))]
  {
    var out := CombineEuVaccinationItems(items).value;
    var cardsItems := FilterKey(items, ClassOf, CardsClass);
    ProcessClassGroupsByClass(items, CardsClass);
    FilterFiner(out, ClassOf, CardsClass, FirstOriginType, t);
    FilterFiner(items, ClassOf, CardsClass, FirstOriginType, t);
    assert forall x :: x in cardsItems ==> x in items;
    CombineCardsItemsByOrigin(cardsItems, t);
  }

  /** Regrouping well-formed cards items yields well-formed cards items only. */
  lemma {:induction false} MergedGroupsAreWellFormed(cardsItems: seq<DashboardItem>)
    requires forall x :: x in cardsItems ==> x.CardsItem? && WellFormed(x)
    ensures forall x :: x in CombineCardsItems(cardsItems) ==> x.CardsItem? && WellFormed(x)
    decreases |cardsItems|
  {
    if cardsItems != [] {
      var t0 := FirstOriginType(cardsItems[0]);
      var g0 := [cardsItems[0]] + FilterKey(cardsItems[1..], FirstOriginType, t0);
      var rest := FilterOutKey(cardsItems[1..], FirstOriginType, t0);
      GroupByCons(cardsItems, FirstOriginType);
      assert ([g0] + GroupBy(rest, FirstOriginType))[1..] == GroupBy(rest, FirstOriginType);
      MergedGroupsAreWellFormed(rest);
      if t0 == Some(Vaccination) {
        MergedVaccinationGroup(g0);
      }
    }
  }

  /**
   * Items of different classes come out in the order in which their
   * classes first appear among the input items.
   */
  lemma {:induction false} ClassBlocksOrdered(items: seq<DashboardItem>)
    ensures BlocksInOrder(ProcessClassGroups(GroupBy(items, ClassOf)), ClassOf, items)
    decreases |items|
  {
    if items != [] {
      var c0 := ClassOf(items[0]);
      var tail := items[1..];
      var g0 := [items[0]] + FilterKey(tail, ClassOf, c0);
      var rest := FilterOutKey(tail, ClassOf, c0);
      var restGroups := GroupBy(rest, ClassOf);
      GroupByCons(items, ClassOf);
      assert ([g0] + restGroups)[1..] == restGroups;
      var head := ProcessClassGroup(g0);
      var outR := ProcessClassGroups(restGroups);
      var out := ProcessClassGroups(GroupBy(items, ClassOf));
      assert out == head + outR;
      ClassBlocksOrdered(rest);
      ProcessFirstClassGroup(items, c0);
      assert forall y :: y in head ==> ClassOf(y) == c0;
      ProcessClassGroupsByClass(rest, c0);
      FilterKeyOfFilterOut(tail, ClassOf, c0, c0);
      assert GroupBy([], FirstOriginType) == [];
      assert FilterKey(outR, ClassOf, c0) == [];
      assert forall y :: y in outR ==> ClassOf(y) != c0;
      BlocksAppend(items, ClassOf, head, outR);
    }
  }

  /**
   * Among the regrouped cards items, items of different origin types come
   * in the order in which those types first appear among the cards items.
   */
  lemma {:induction false} OriginBlocksOrdered(cardsItems: seq<DashboardItem>)
    requires forall x :: x in cardsItems ==> x.CardsItem? && WellFormed(x)
    ensures BlocksInOrder(CombineCardsItems(cardsItems), FirstOriginType, cardsItems)
    decreases |cardsItems|
  {
    if cardsItems != [] {
      var t0 := FirstOriginType(cardsItems[0]);
      var tail := cardsItems[1..];
      var g0 := [cardsItems[0]] + FilterKey(tail, FirstOriginType, t0);
      var rest := FilterOutKey(tail, FirstOriginType, t0);
      var restGroups := GroupBy(rest, FirstOriginType);
      GroupByCons(cardsItems, FirstOriginType);
      assert ([g0] + restGroups)[1..] == restGroups;
      var head := MergeOriginGroup(g0);
      var outR := CombineCardsItems(rest);
      var out := CombineCardsItems(cardsItems);
      assert out == head + outR;
      OriginBlocksOrdered(rest);
      if t0 == Some(Vaccination) {
        MergedVaccinationGroup(g0);
      }
      assert forall y :: y in head ==> FirstOriginType(y) == t0;
      CombineCardsItemsByOrigin(rest, t0);
      FilterKeyOfFilterOut(tail, FirstOriginType, t0, t0);
      assert FilterKey(outR, FirstOriginType, t0) == [];
      assert forall y :: y in outR ==> FirstOriginType(y) != t0;
      BlocksAppend(cardsItems, FirstOriginType, head, outR);
    }
  }

  /** The cards items of the input that `combineEuVaccinationItems` regroups. */
  lemma CardsItemsOfWellFormed(items: seq<DashboardItem>)
    requires forall i :: 0 <= i < |items| ==> WellFormed(items[i])
    ensures forall x :: x in FilterKey(items, ClassOf, CardsClass) ==> x.CardsItem? && WellFormed(x)
  {
    forall x | x in FilterKey(items, ClassOf, CardsClass)
      ensures x.CardsItem? && WellFormed(x)
    {
      var i :| 0 <= i < |items| && items[i] == x;
    }
  }

  /** No item of the output is a cards item without cards, or whose first card has no origins. */
  lemma CombinedItemsWellFormed(items: seq<DashboardItem>)
    requires forall i :: 0 <= i < |items| ==> WellFormed(items[i])
    ensures var out := CombineEuVaccinationItems(items).value;
      forall i :: 0 <= i < |out| ==> WellFormed(out[i])
  {
    var out := CombineEuVaccinationItems(items).value;
    var cardsItems := FilterKey(items, ClassOf, CardsClass);
    CardsItemsOfWellFormed(items);
    ProcessClassGroupsByClass(items, CardsClass);
    MergedGroupsAreWellFormed(cardsItems);
    forall i | 0 <= i < |out|
      ensures WellFormed(out[i])
    {
      if out[i].CardsItem? {
        assert out[i] in FilterKey(out, ClassOf, CardsClass);
      }
    }
  }

  /**
   * Within the output's cards items, items of different origin types come
   * in the order in which those types first appear among the input items.
   */
  lemma CombinedOriginsInOrder(items: seq<DashboardItem>)
    requires forall i :: 0 <= i < |items| ==> WellFormed(items[i])
    ensures BlocksInOrder(FilterKey(CombineEuVaccinationItems(items).value, ClassOf, CardsClass), FirstOriginType, items)
  {
    var cardsItems := FilterKey(items, ClassOf, CardsClass);
    CardsItemsOfWellFormed(items);
    ProcessClassGroupsByClass(items, CardsClass);
    var s := CombineCardsItems(cardsItems);
    MergedGroupsAreWellFormed(cardsItems);
    OriginBlocksOrdered(cardsItems);
    forall i, j | 0 <= i < j < |s| && FirstOriginType(s[i]) != FirstOriginType(s[j])
      ensures KeyIndex(items, FirstOriginType, FirstOriginType(s[i]))
            < KeyIndex(items, FirstOriginType, FirstOriginType(s[j]))
    {
      assert s[i] in s && s[j] in s;
      KeyIndexOfFilter(items, ClassOf, CardsClass, FirstOriginType, FirstOriginType(s[i]), FirstOriginType(s[j]));
    }
  }

  /**
   * The arrangement of the output of `combineEuVaccinationItems`: every
   * item is well formed (no cards item is empty or lacks a first origin),
   * the class groups come in the order in which the classes first appear,
   * and within the cards items the origin-type groups come in the order in
   * which the origin types first appear.
   */
  lemma CombineEuVaccinationItemsOrder(items: seq<DashboardItem>)
    requires forall i :: 0 <= i < |items| ==> WellFormed(items[i])
    ensures var out := CombineEuVaccinationItems(items).value;
      && (forall i :: 0 <= i < |out| ==> WellFormed(out[i]))
      && BlocksInOrder(out, ClassOf, items)
      && BlocksInOrder(FilterKey(out, ClassOf, CardsClass), FirstOriginType, items)
  {
    CombinedItemsWellFormed(items);
    ClassBlocksOrdered(items);
    CombinedOriginsInOrder(items);
  }

  /**
   * What `combineEuVaccinationItems` promises, for items on which it does
   * not throw:
   * - items of every class other than the cards items are kept, in order;
   * - the multiset of all cards across all cards items is unchanged;
   * - the cards items whose first card's first origin is a vaccination
   *   become at most one item, holding all their cards in input order;
   * - the cards items of every other origin type are kept as they were;
   * - every output item is well formed, so no cards item is empty;
   * - the class groups come in the order in which the classes first
   *   appear, and among the cards items the origin-type groups come in the
   *   order in which the origin types first appear.
   */
  lemma {:induction false} CombineEuVaccinationItemsSpec(items: seq<DashboardItem>)
    requires forall i :: 0 <= i < |items| ==> WellFormed(items[i])
    ensures CombineEuVaccinationItems(items).Some?
    ensures var out := CombineEuVaccinationItems(items).value;
      && (forall c :: c != CardsClass ==> FilterKey(out, ClassOf, c) == FilterKey(items, ClassOf, c))
      && multiset(AllCards(out)) == multiset(AllCards(items))
      && (var vaccination := FilterKey(items, FirstOriginType, Some(Vaccination));
          FilterKey(out, FirstOriginType, Some(Vaccination)) ==
            if vaccination == [] then [] else [CardsItem(AllCards(vaccination))])
      && (forall t :: t != Vaccination ==>
            FilterKey(out, FirstOriginType, Some(t)) == FilterKey(items, FirstOriginType, Some(t)))
      && (forall i :: 0 <= i < |out| ==> WellFormed(out[i]))
      && BlocksInOrder(out, ClassOf, items)
      && BlocksInOrder(FilterKey(out, ClassOf, CardsClass), FirstOriginType, items)
  {
    CombineEuVaccinationItemsOrder(items);
    forall c | c != CardsClass
      ensures FilterKey(CombineEuVaccinationItems(items).value, ClassOf, c) == FilterKey(items, ClassOf, c)
    {
      CombineKeepsOtherClasses(items, c);
    }
    CombineKeepsCards(items);
    CombineByOrigin(items, Some(Vaccination));
    forall t | t != Vaccination
      ensures FilterKey(CombineEuVaccinationItems(items).value, FirstOriginType, Some(t))
           == FilterKey(items, FirstOriginType, Some(t))
    {
      CombineByOrigin(items, Some(t));
    }
  }

  /**
   * Grouping by class moves items: the second placeholder joins the first,
   * ahead of the header that came between them.
   */
  lemma GroupingByClassReorders()
    ensures CombineEuVaccinationItems([PlaceholderCardItem, HeaderItem("h"), PlaceholderCardItem])
      == Some([PlaceholderCardItem, PlaceholderCardItem, HeaderItem("h")])
  {
    var items := [PlaceholderCardItem, HeaderItem("h"), PlaceholderCardItem];
    assert items[1..] == [HeaderItem("h"), PlaceholderCardItem];
    assert FilterKey(items[1..], ClassOf, PlaceholderClass) == [PlaceholderCardItem];
    assert FilterOutKey(items[1..], ClassOf, PlaceholderClass) == [HeaderItem("h")];
    GroupByCons([HeaderItem("h")], ClassOf);
    assert [HeaderItem("h")][1..] == [];
    assert GroupBy([HeaderItem("h")], ClassOf) == [[HeaderItem("h")]];
    GroupByCons(items, ClassOf);
    var groups := GroupBy(items, ClassOf);
    assert ClassOf(items[0]) == PlaceholderClass;
    assert groups == [[PlaceholderCardItem] + [PlaceholderCardItem]] + [[HeaderItem("h")]];
    assert [PlaceholderCardItem] + [PlaceholderCardItem] == [PlaceholderCardItem, PlaceholderCardItem];
    assert groups == [[PlaceholderCardItem, PlaceholderCardItem], [HeaderItem("h")]];
    assert groups[1..] == [[HeaderItem("h")]];
    assert ProcessClassGroups(groups[1..]) == [HeaderItem("h")] + ProcessClassGroups([]);
    assert ProcessClassGroups(groups) == [PlaceholderCardItem, PlaceholderCardItem] + [HeaderItem("h")];
    assert forall i :: 0 <= i < |items| ==> WellFormed(items[i]);
    assert CombineEuVaccinationItems(items) == Some(ProcessClassGroups(groups));
    assert [PlaceholderCardItem, PlaceholderCardItem] + [HeaderItem("h")]
      == [PlaceholderCardItem, PlaceholderCardItem, HeaderItem("h")];
  }
}
