/**
 * The logic of `YourEventsFragment`, the screen that lists the events
 * fetched from the providers before the holder saves them: the holder's
 * name and birth date as shown, the rule that hides the list behind an
 * "expired" screen, the events presented, what the save button stores,
 * and the reaction to the outcome of the database sync.
 *
 * Times are epoch seconds. The clock, the ISO date parser and the date
 * formatter are parameters.
 */
module YourEventsFragment {
  import opened Wrappers
  import opened Collections
  import GreenCards
  import Text
  import TestResultUseCase

  // ---------------------------------------------------------------------
  // Remote events

  /** An event as a provider reports it; positive tests and recoveries carry the date the expiry rule reads. */
  datatype RemoteEvent =
    | RemoteEventVaccination(unique: string)
    | RemoteEventNegativeTest(unique: string)
    | RemoteEventPositiveTest(unique: string, date: int)
    | RemoteEventRecovery(unique: string, date: int)

  datatype Holder = Holder(
    infix: Option<string>, firstName: Option<string>, lastName: Option<string>, birthDate: Option<string>)

  /** A provider's answer in protocol version 3: who it is about and the events it lists, if any. */
  datatype RemoteProtocol3 = RemoteProtocol3(
    providerIdentifier: string, holder: Option<Holder>, events: Option<seq<RemoteEvent>>)

  datatype LocalDate = LocalDate(year: int, month: int, day: int)

  // ---------------------------------------------------------------------
  // Holder details

  /** A nullable string in a Kotlin string template: `null` is rendered as the text "null". */
  function Render(s: Option<string>): string
  {
    match s
    case Some(text) => text
    case None => "null"
  }

  /**
   * `getFullName`: "lastName, firstName", preceded by the infix and a
   * space when the infix is neither null nor empty; `""` without a holder.
   */
  function GetFullName(holder: Option<Holder>): (name: string)
    ensures holder.None? <==> name == ""
    ensures holder.Some? ==>
      var h := holder.value;
      var surname := if h.infix.None? || h.infix.value == "" then Render(h.lastName)
        else h.infix.value + " " + Render(h.lastName);
      name == surname + ", " + Render(h.firstName)
  {
    match holder
    case None => ""
    case Some(h) =>
      if h.infix.None? || h.infix.value == "" then Render(h.lastName) + ", " + Render(h.firstName)
      else h.infix.value + " " + Render(h.lastName) + ", " + Render(h.firstName)
  }

  /** A null infix and an empty infix give the same name, and the first name always closes it. */
  lemma FullNameInfix(h: Holder)
    ensures GetFullName(Some(h.(infix := None))) == GetFullName(Some(h.(infix := Some(""))))
    ensures var name := GetFullName(Some(h));
      var first := Render(h.firstName);
      |name| >= |first| + 2 && name[|name| - |first|..] == first
      && name[|name| - |first| - 2..|name| - |first|] == ", "
  {
  }

  /**
   * `getBirthDate`: the formatted birth date, or `""` when there is no
   * holder, no birth date, or the birth date is not an ISO date.
   */
  function GetBirthDate(
    holder: Option<Holder>, parseIsoDate: string -> Option<LocalDate>, formatDayMonthYear: LocalDate -> string)
    : (date: string)
    ensures holder.None? || holder.value.birthDate.None? ==> date == ""
    ensures (holder.Some? && holder.value.birthDate.Some?
             && parseIsoDate(holder.value.birthDate.value).None?) ==> date == ""
  {
    if holder.None? || holder.value.birthDate.None? then ""
    else
      match parseIsoDate(holder.value.birthDate.value)
      case Some(d) => formatDayMonthYear(d)
      case None => ""
  }

  /** A non-empty birth date shown always comes from a holder's parsable birth date. */
  lemma BirthDateShownOnlyWhenParsed(
    holder: Option<Holder>, parseIsoDate: string -> Option<LocalDate>, formatDayMonthYear: LocalDate -> string)
    requires GetBirthDate(holder, parseIsoDate, formatDayMonthYear) != ""
    ensures holder.Some? && holder.value.birthDate.Some?
    ensures parseIsoDate(holder.value.birthDate.value).Some?
  {
  }

  // ---------------------------------------------------------------------
  // The expiry rule

  const SecondsPerDay := 86400
  /** Positive tests and recoveries older than this many days are expired. */
  const ExpiryDays := 180

  /** All events of all protocols, in order (`flatMap { it.events ?: emptyList() }`). */
  function AllEvents(remoteEvents: seq<RemoteProtocol3>): seq<RemoteEvent>
  {
    if remoteEvents == [] then []
    else AllEvents(remoteEvents[..|remoteEvents| - 1]) + remoteEvents[|remoteEvents| - 1].events.GetOr([])
  }

  function IsPositiveOrRecovery(event: RemoteEvent): bool
  {
    event.RemoteEventPositiveTest? || event.RemoteEventRecovery?
  }

  function PositiveOrRecoveryEvents(remoteEvents: seq<RemoteProtocol3>): seq<RemoteEvent>
  {
    FilterKey(AllEvents(remoteEvents), IsPositiveOrRecovery, true)
  }

  /**
   * `hasShownExpiredEvent`: when exactly one positive test or recovery was
   * fetched and it is more than 180 days older than `now`, the expired
   * screen is shown instead of the events.
   */
  function HasShownExpiredEvent(remoteEvents: seq<RemoteProtocol3>, now: int): (expired: bool)
    ensures expired ==> |PositiveOrRecoveryEvents(remoteEvents)| == 1
  {
    var events := PositiveOrRecoveryEvents(remoteEvents);
    |events| == 1 && assert events[0] in events; now - ExpiryDays * SecondsPerDay > events[0].date
  }

  /** One positive test or recovery among all events, dated more than 180 days before `now`, is expired. */
  lemma SingleOldEventIsExpired(remoteEvents: seq<RemoteProtocol3>, now: int, i: nat)
    requires i < |AllEvents(remoteEvents)| && IsPositiveOrRecovery(AllEvents(remoteEvents)[i])
    requires forall j :: 0 <= j < |AllEvents(remoteEvents)| && j != i ==> !IsPositiveOrRecovery(AllEvents(remoteEvents)[j])
    ensures HasShownExpiredEvent(remoteEvents, now) <==> now - 180 * 86400 > AllEvents(remoteEvents)[i].date
  {
    FilterKeyUnique(AllEvents(remoteEvents), IsPositiveOrRecovery, true, i);
  }

  /** Two or more positive tests or recoveries are never treated as expired, however old. */
  lemma TwoEventsAreNotExpired(remoteEvents: seq<RemoteProtocol3>, now: int, i: nat, j: nat)
    requires i < j < |AllEvents(remoteEvents)|
    requires IsPositiveOrRecovery(AllEvents(remoteEvents)[i]) && IsPositiveOrRecovery(AllEvents(remoteEvents)[j])
    ensures !HasShownExpiredEvent(remoteEvents, now)
  {
    FilterKeyTwo(AllEvents(remoteEvents), IsPositiveOrRecovery, true, i, j);
  }

  /** Without positive tests or recoveries nothing is expired. */
  lemma NoPositiveEventIsNotExpired(remoteEvents: seq<RemoteProtocol3>, now: int)
    requires forall j :: 0 <= j < |AllEvents(remoteEvents)| ==> !IsPositiveOrRecovery(AllEvents(remoteEvents)[j])
    ensures !HasShownExpiredEvent(remoteEvents, now)
  {
    FilterKeyEmpty(AllEvents(remoteEvents), IsPositiveOrRecovery, true);
  }

  /** What is expired stays expired as time goes on. */
  lemma ExpiryIsMonotone(remoteEvents: seq<RemoteProtocol3>, now: int, later: int)
    requires now <= later
    requires HasShownExpiredEvent(remoteEvents, now)
    ensures HasShownExpiredEvent(remoteEvents, later)
  {
  }

  // ---------------------------------------------------------------------
  // Presenting the events

  /** One event card: the event, the provider (shown for vaccinations only), the holder's name and birth date. */
  datatype PresentedEvent = PresentedEvent(
    event: RemoteEvent, providerIdentifier: Option<string>, fullName: string, birthDate: string)

  function PresentedFor(
    remoteProtocol3: RemoteProtocol3, event: RemoteEvent,
    parseIsoDate: string -> Option<LocalDate>, formatDayMonthYear: LocalDate -> string): PresentedEvent
  {
    PresentedEvent(
      event,
      if event.RemoteEventVaccination? then Some(remoteProtocol3.providerIdentifier) else None,
      GetFullName(remoteProtocol3.holder),
      GetBirthDate(remoteProtocol3.holder, parseIsoDate, formatDayMonthYear))
  }

  /** The cards of all events of all protocols, in order. */
  function PresentedAll(
    remoteEvents: seq<RemoteProtocol3>,
    parseIsoDate: string -> Option<LocalDate>, formatDayMonthYear: LocalDate -> string): seq<PresentedEvent>
  {
    if remoteEvents == [] then []
    else
      var last := remoteEvents[|remoteEvents| - 1];
      var events := last.events.GetOr([]);
      PresentedAll(remoteEvents[..|remoteEvents| - 1], parseIsoDate, formatDayMonthYear)
        + seq(|events|, k requires 0 <= k < |events| => PresentedFor(last, events[k], parseIsoDate, formatDayMonthYear))
  }

  /** There is one card per event, for that event, in the order of `AllEvents`. */
  lemma {:induction false} PresentedAllEvents(
    remoteEvents: seq<RemoteProtocol3>,
    parseIsoDate: string -> Option<LocalDate>, formatDayMonthYear: LocalDate -> string)
    ensures var cards := PresentedAll(remoteEvents, parseIsoDate, formatDayMonthYear);
      |cards| == |AllEvents(remoteEvents)|
      && forall k :: 0 <= k < |cards| ==> cards[k].event == AllEvents(remoteEvents)[k]
  {
    if remoteEvents != [] {
      PresentedAllEvents(remoteEvents[..|remoteEvents| - 1], parseIsoDate, formatDayMonthYear);
    }
  }

  /**
   * `presentEvents` for provider events: nothing when the expired screen is
   * shown instead, otherwise one card per event of every protocol.
   */
  method PresentEvents(
    remoteEvents: seq<RemoteProtocol3>, now: int,
    parseIsoDate: string -> Option<LocalDate>, formatDayMonthYear: LocalDate -> string)
    returns (cards: seq<PresentedEvent>, expiredShown: bool)
    ensures expiredShown == HasShownExpiredEvent(remoteEvents, now)
    ensures expiredShown ==> cards == []
    ensures !expiredShown ==> cards == PresentedAll(remoteEvents, parseIsoDate, formatDayMonthYear)
  {
    cards := [];
    expiredShown := HasShownExpiredEvent(remoteEvents, now);
    if expiredShown {
      return;
    }
    var i := 0;
    while i < |remoteEvents|
      invariant 0 <= i <= |remoteEvents|
      invariant cards == PresentedAll(remoteEvents[..i], parseIsoDate, formatDayMonthYear)
    {
      var remoteProtocol3 := remoteEvents[i];
      var events := remoteProtocol3.events.GetOr([]);
      ghost var before := cards;
      var j := 0;
      while j < |events|
        invariant 0 <= j <= |events|
        invariant cards == before
          + seq(j, k requires 0 <= k < j => PresentedFor(remoteProtocol3, events[k], parseIsoDate, formatDayMonthYear))
      {
        cards := cards + [PresentedFor(remoteProtocol3, events[j], parseIsoDate, formatDayMonthYear)];
        j := j + 1;
      }
      assert remoteEvents[..i + 1][..i] == remoteEvents[..i];
      i := i + 1;
    }
    assert remoteEvents[..i] == remoteEvents;
  }

  // ---------------------------------------------------------------------
  // The save button

  /** What the screen was opened with. */
  datatype YourEventsFragmentType =
    | TestResult2(remoteTestResult: TestResultUseCase.RemoteTestResult, rawResponse: seq<bv8>)
    | Vaccinations(remoteEvents: seq<(RemoteProtocol3, seq<bv8>)>)
    | NegativeTests(remoteEvents: seq<(RemoteProtocol3, seq<bv8>)>)
    | PositiveTestsAndRecoveries(remoteEvents: seq<(RemoteProtocol3, seq<bv8>)>)

  /** The kind of event stored with the saved events. */
  datatype EventType = Vaccination | Test | Recovery

  /** What pressing the save button asks the view model to store. */
  datatype SaveAction =
    | SaveNegativeTest2(remoteTestResult: TestResultUseCase.RemoteTestResult, rawResponse: seq<bv8>)
    | SaveRemoteProtocol3Events(
        remoteProtocols3: seq<(RemoteProtocol3, seq<bv8>)>, originType: GreenCards.OriginType, eventType: EventType)

  /** The origin type that belongs to an event type. */
  function OriginTypeOf(eventType: EventType): GreenCards.OriginType
  {
    match eventType
    case Vaccination => GreenCards.Vaccination
    case Test => GreenCards.Test
    case Recovery => GreenCards.Recovery
  }

  /** `handleButton`: the protocol 2 result is saved as is; provider events are saved with their event and origin type. */
  function HandleButton(fragmentType: YourEventsFragmentType): (action: SaveAction)
    ensures fragmentType.TestResult2? <==> action.SaveNegativeTest2?
    ensures fragmentType.TestResult2? ==>
      action == SaveNegativeTest2(fragmentType.remoteTestResult, fragmentType.rawResponse)
    ensures !fragmentType.TestResult2? ==> action.remoteProtocols3 == fragmentType.remoteEvents
    ensures fragmentType.Vaccinations? ==>
      action.eventType == Vaccination && action.originType == GreenCards.Vaccination
    ensures fragmentType.NegativeTests? ==>
      action.eventType == Test && action.originType == GreenCards.Test
    ensures fragmentType.PositiveTestsAndRecoveries? ==>
      action.eventType == Recovery && action.originType == GreenCards.Recovery
  {
    match fragmentType
    case TestResult2(result, raw) => SaveNegativeTest2(result, raw)
    case Vaccinations(events) => SaveRemoteProtocol3Events(events, GreenCards.Vaccination, Vaccination)
    case NegativeTests(events) => SaveRemoteProtocol3Events(events, GreenCards.Test, Test)
    case PositiveTestsAndRecoveries(events) => SaveRemoteProtocol3Events(events, GreenCards.Recovery, Recovery)
  }

  /**
   * The event type and the origin type saved always belong together, and
   * different kinds of screen save different origin types.
   */
  lemma SavedTypesCorrespond(t1: YourEventsFragmentType, t2: YourEventsFragmentType)
    ensures HandleButton(t1).SaveRemoteProtocol3Events? ==>
      HandleButton(t1).originType == OriginTypeOf(HandleButton(t1).eventType)
    ensures (HandleButton(t1).SaveRemoteProtocol3Events? && HandleButton(t2).SaveRemoteProtocol3Events?
             && HandleButton(t1).originType == HandleButton(t2).originType) ==>
      HandleButton(t1).eventType == HandleButton(t2).eventType
      && (t1.Vaccinations? <==> t2.Vaccinations?)
      && (t1.NegativeTests? <==> t2.NegativeTests?)
  {
  }

  // ---------------------------------------------------------------------
  // The outcome of saving

  /** The outcome of syncing the saved events into green cards. */
  datatype DatabaseSyncerResult = Success | MissingOrigin | NetworkError | ServerError(httpCode: int)

  /** How the screen reacts. */
  datatype Reaction =
    | NavigateToMyOverview
    | NavigateToCouldNotCreateQr(toolbarTitle: string)
    | NoInternetDialog
    | ErrorDialog(errorCode: string)

  /** The `when` over the sync outcome: one reaction per outcome, the server error's code shown in decimal. */
  function ReactTo(result: DatabaseSyncerResult, toolbarTitle: string): (reaction: Reaction)
    ensures result.Success? <==> reaction.NavigateToMyOverview?
    ensures result.MissingOrigin? <==> reaction == NavigateToCouldNotCreateQr(toolbarTitle)
    ensures result.NetworkError? <==> reaction.NoInternetDialog?
    ensures result.ServerError? <==> reaction.ErrorDialog?
    ensures result.ServerError? ==> Text.ParseInt(reaction.errorCode) == result.httpCode
  {
    match result
    case Success => NavigateToMyOverview
    case MissingOrigin => NavigateToCouldNotCreateQr(toolbarTitle)
    case NetworkError => NoInternetDialog
    case ServerError(httpCode) =>
      Text.IntToStringRoundTrip(httpCode);
      ErrorDialog(Text.IntToString(httpCode))
  }

  /** Different server errors produce different dialogs, so the code shown identifies the error. */
  lemma ErrorDialogIdentifiesCode(a: int, b: int, toolbarTitle: string)
    requires ReactTo(ServerError(a), toolbarTitle) == ReactTo(ServerError(b), toolbarTitle)
    ensures a == b
  {
    Text.IntToStringInjective(a, b);
  }
}
