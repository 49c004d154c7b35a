# CoronaCheck holder and verifier logic, modelled in Dafny

This project models the decision logic of the CoronaCheck Android apps and proves properties of it. The holder app collects test, vaccination and recovery events and turns them into green cards. The verifier app scans QR codes. The model covers seven parts:

- **Dashboard policy** (`DashboardItemUtil.dfy`). It decides which banners and affordances the overview shows for the stored green cards: the header, the clock-deviation warning, the placeholder, the add-QR button and the two sync banners. It also shows how `combineEuVaccinationItems` regroups the overview's items: it groups them by class, then merges the cards items whose first origin is a vaccination into a single item.
- **Network result classification** (`NetworkRequestResultFactory.dfy`). This is how a network call's value or exception becomes one `NetworkRequestResult` variant.
- **Test-result redemption** (`TestResultUseCase.dfy`). It parses the unique code a test provider hands out and checks it offline. It then fetches the result and classifies it into a `TestResult` variant.
- **DigiD login** (`DigiD.dfy`). This is the classification of the authorization activity's result into `DigidResult`. The view model that posts these results and the loading events is a class.
- **Cached configuration** (`CachedAppConfigUseCase.dfy`). It covers the fallback to the default configuration and the provider-name lookup.
- **The "your events" screen** (`YourEventsFragment.dfy`). It covers:
  - the holder's name and birth date as shown;
  - the 180-day expiry rule for a single positive test or recovery;
  - the events presented, as a method with nested loops;
  - what the save button stores;
  - the reaction to the database sync's outcome.
- **The verifier's destination listener** (`VerifierMainFragment.dfy`). A class with the fields `isFreshStart` and `hasHandledDeeplink` refreshes the configuration and launches the scanner for a deeplink.

Some files only support the others:

- `Wrappers.dfy` has `Option`.
- `Collections.dfy` has Kotlin's `filter`, `flatten` and `groupBy`. `groupBy` collects into a `LinkedHashMap`, so groups come in first-appearance order.
- `Text.dfy` has `split` on a single character, `Int.toString`, and their inverses.
- `GreenCards.dfy` has the stored green-card records.

Kotlin's nullable values become `Option`. An exception the source catches becomes a variant of an outcome datatype. Every collaborator whose code is not part of this model becomes a function parameter: the clock, the token validator, the JSON parser, the authorization library and the repositories. Times are integer epoch seconds.

## Model

| member | source | states |
|---|---|---|
| DashboardItemUtil.ShouldShowHeaderItem | holder/src/main/java/nl/rijksoverheid/ctr/holder/ui/create_qr/util/DashboardItemUtil.kt:38-39 | the header shows exactly when there is at least one green card (the `all` disjunct adds nothing, since `all` of an empty list holds) |
| DashboardItemUtil.ShouldShowClockDeviationItem | holder/src/main/java/nl/rijksoverheid/ctr/holder/ui/create_qr/util/DashboardItemUtil.kt:41-43 | the clock warning shows exactly when a deviation is reported and there are cards; it never shows without the header |
| DashboardItemUtil.ShouldShowPlaceholderItem | holder/src/main/java/nl/rijksoverheid/ctr/holder/ui/create_qr/util/DashboardItemUtil.kt:45-46 | the placeholder shows exactly when every card (possibly none) is expired |
| DashboardItemUtil.ShouldAddQrButtonItem | holder/src/main/java/nl/rijksoverheid/ctr/holder/ui/create_qr/util/DashboardItemUtil.kt:48-49 | the add-QR button shows exactly when there are no cards |
| DashboardItemUtil.HeaderAndPlaceholder | holder/src/main/java/nl/rijksoverheid/ctr/holder/ui/create_qr/util/DashboardItemUtil.kt:38-49 | header or placeholder always shows; both show exactly when there are cards and all have expired; the QR button comes only with the placeholder and never with the header |
| DashboardItemUtil.EuVaccinationCount | holder/src/main/java/nl/rijksoverheid/ctr/holder/ui/create_qr/util/DashboardItemUtil.kt:85-86 | the two chained filters find no card exactly when no card is an EU card with a vaccination origin, and at least two exactly when two distinct cards are |
| DashboardItemUtil.ShouldAddSyncGreenCardsItem | holder/src/main/java/nl/rijksoverheid/ctr/holder/ui/create_qr/util/DashboardItemUtil.kt:73-88 | with 0 or 1 vaccination events the upgrade banner never shows; otherwise it shows exactly when exactly one card is an EU vaccination card |
| DashboardItemUtil.ShouldAddGreenCardsSyncedItem | holder/src/main/java/nl/rijksoverheid/ctr/holder/ui/create_qr/util/DashboardItemUtil.kt:90-97 | the synced banner shows exactly when it was not dismissed and two distinct cards are EU vaccination cards |
| DashboardItemUtil.SyncBannersExclusive | holder/src/main/java/nl/rijksoverheid/ctr/holder/ui/create_qr/util/DashboardItemUtil.kt:73-97 | the upgrade banner and the synced banner never show together |
| DashboardItemUtil.ClassOf | holder/src/main/java/nl/rijksoverheid/ctr/holder/ui/create_qr/util/DashboardItemUtil.kt:53 | an item's class is the cards-item class exactly when it is a cards item |
| DashboardItemUtil.FirstOriginType | holder/src/main/java/nl/rijksoverheid/ctr/holder/ui/create_qr/util/DashboardItemUtil.kt:59 | only a cards item has a first origin type |
| DashboardItemUtil.CombineEuVaccinationItems | holder/src/main/java/nl/rijksoverheid/ctr/holder/ui/create_qr/util/DashboardItemUtil.kt:51-71 | the regrouping succeeds exactly when no cards item is empty and no first card lacks origins; otherwise `first()` throws |
| DashboardItemUtil.CombineEuVaccinationItemsSpec | holder/src/main/java/nl/rijksoverheid/ctr/holder/ui/create_qr/util/DashboardItemUtil.kt:51-71 | for items on which it does not throw: other classes keep their items in order; all cards are kept as a multiset; vaccination cards items become at most one item holding all their cards in order; the cards items of other origin types are kept; every output item is well formed (no empty cards item); class groups come in the order their classes first appear, and within the cards items the origin-type groups in the order their types first appear |
| DashboardItemUtil.CombineEuVaccinationItemsOrder | holder/src/main/java/nl/rijksoverheid/ctr/holder/ui/create_qr/util/DashboardItemUtil.kt:52-70 | the output is well formed and arranged by first appearance: of the classes among the items, and of the origin types among the cards items |
| DashboardItemUtil.CombinedItemsWellFormed | holder/src/main/java/nl/rijksoverheid/ctr/holder/ui/create_qr/util/DashboardItemUtil.kt:58-68 | no output item is a cards item without cards or whose first card has no origins |
| DashboardItemUtil.CombinedOriginsInOrder | holder/src/main/java/nl/rijksoverheid/ctr/holder/ui/create_qr/util/DashboardItemUtil.kt:59-68 | the output's cards items of different origin types come in the order their origin types first appear in the input |
| DashboardItemUtil.ClassBlocksOrdered | holder/src/main/java/nl/rijksoverheid/ctr/holder/ui/create_qr/util/DashboardItemUtil.kt:53-56 | after grouping by class, items of different classes come in the order their classes first appear |
| DashboardItemUtil.OriginBlocksOrdered | holder/src/main/java/nl/rijksoverheid/ctr/holder/ui/create_qr/util/DashboardItemUtil.kt:59-68 | after grouping by first origin type, items of different types come in the order their types first appear |
| DashboardItemUtil.MergedGroupsAreWellFormed | holder/src/main/java/nl/rijksoverheid/ctr/holder/ui/create_qr/util/DashboardItemUtil.kt:58-68 | regrouping well-formed cards items yields well-formed cards items only |
| DashboardItemUtil.CombineKeepsOtherClasses | holder/src/main/java/nl/rijksoverheid/ctr/holder/ui/create_qr/util/DashboardItemUtil.kt:53-56 | a class group that is not cards items passes through unchanged and in order |
| DashboardItemUtil.CombineKeepsCards | holder/src/main/java/nl/rijksoverheid/ctr/holder/ui/create_qr/util/DashboardItemUtil.kt:58-68 | regrouping neither loses nor duplicates a card |
| DashboardItemUtil.CombineByOrigin | holder/src/main/java/nl/rijksoverheid/ctr/holder/ui/create_qr/util/DashboardItemUtil.kt:58-68 | per origin type: vaccination items merged into one item with their cards concatenated, all other origin types kept as they were |
| DashboardItemUtil.CombineCardsItemsByOrigin | holder/src/main/java/nl/rijksoverheid/ctr/holder/ui/create_qr/util/DashboardItemUtil.kt:58-68 | the same per-origin statement for the cards-item group alone |
| DashboardItemUtil.CombineCardsItemsKeepsCards | holder/src/main/java/nl/rijksoverheid/ctr/holder/ui/create_qr/util/DashboardItemUtil.kt:58-68 | the cards-item group keeps the multiset of its cards |
| DashboardItemUtil.ProcessClassGroupsByClass | holder/src/main/java/nl/rijksoverheid/ctr/holder/ui/create_qr/util/DashboardItemUtil.kt:52-70 | after grouping by class and flattening, each class holds its input items in order, except cards items, which hold their regrouping |
| DashboardItemUtil.MergedGroupsAreCardsItems | holder/src/main/java/nl/rijksoverheid/ctr/holder/ui/create_qr/util/DashboardItemUtil.kt:58-68 | regrouping cards items yields only cards items |
| DashboardItemUtil.MergedVaccinationGroup | holder/src/main/java/nl/rijksoverheid/ctr/holder/ui/create_qr/util/DashboardItemUtil.kt:61-66 | the merged vaccination item again has a vaccination as its first origin |
| DashboardItemUtil.GroupingByClassReorders | holder/src/main/java/nl/rijksoverheid/ctr/holder/ui/create_qr/util/DashboardItemUtil.kt:52-56 | grouping by class moves a later placeholder ahead of a header between two placeholders |
| Collections.GroupBy | holder/src/main/java/nl/rijksoverheid/ctr/holder/ui/create_qr/util/DashboardItemUtil.kt:53 | `groupBy(...).values`: groups are non-empty, hold input elements sharing their head's key, and their keys are distinct |
| Collections.GroupByPermutation | holder/src/main/java/nl/rijksoverheid/ctr/holder/ui/create_qr/util/DashboardItemUtil.kt:53 | the flattened groups are a permutation of the input |
| Collections.GroupByKeepsOrder | holder/src/main/java/nl/rijksoverheid/ctr/holder/ui/create_qr/util/DashboardItemUtil.kt:59 | for every key, the flattened groups hold that key's elements in input order |
| Collections.GroupByFirstAppearance | holder/src/main/java/nl/rijksoverheid/ctr/holder/ui/create_qr/util/DashboardItemUtil.kt:53 | `groupBy(...).values` of a `LinkedHashMap`: every group is exactly its key's elements in input order, every key has a group, groups come in the order their keys first appear, and each is headed by its key's first occurrence |
| Collections.GroupsInOrder | holder/src/main/java/nl/rijksoverheid/ctr/holder/ui/create_qr/util/DashboardItemUtil.kt:53 | the groups' keys first appear in the input in strictly increasing positions |
| Collections.FilterKey | holder/src/main/java/nl/rijksoverheid/ctr/holder/ui/create_qr/util/DashboardItemUtil.kt:85 | `filter`: the result holds exactly the elements with the key, and is no longer than the input |
| NetworkRequestResultFactory.CreateResult | api/src/main/java/nl/rijksoverheid/ctr/api/factory/NetworkRequestResultFactory.kt:20-48 | each variant in both directions: a returned value is Success; an HttpException is CoronaCheckHttpError exactly when there is an error body and it converts to a non-null response, and HttpError otherwise (no body, null, or the converter throws); a timeout or unknown host is NetworkError; every other exception is Error; the step is always kept |
| NetworkRequestResultFactory.FailureIffThrew | api/src/main/java/nl/rijksoverheid/ctr/api/factory/NetworkRequestResultFactory.kt:20-48 | a failure variant arises exactly when the call threw, and the classification does not depend on the step |
| TestResultUseCase.ParseUniqueCode | holder/src/test/java/nl/rijksoverheid/ctr/holder/ui/create_qr/usecases/TestResultUseCaseTest.kt:42-62 | a code parses exactly when splitting on `-` gives three non-empty parts; the parts contain no `-` and rebuild the code |
| TestResultUseCase.ParseFormattedCode | holder/src/test/java/nl/rijksoverheid/ctr/holder/ui/create_qr/usecases/TestResultUseCaseTest.kt:129 | formatting three non-empty segments without `-` and parsing them back gives the segments |
| TestResultUseCase.WrongSegmentCount | holder/src/test/java/nl/rijksoverheid/ctr/holder/ui/create_qr/usecases/TestResultUseCaseTest.kt:42-62 | a code without exactly two `-` never parses |
| TestResultUseCase.Classify | holder/src/test/java/nl/rijksoverheid/ctr/holder/ui/create_qr/usecases/TestResultUseCaseTest.kt:106-246 | each status in both directions: COMPLETE with a negative result that is valid is NegativeTestResult carrying the response; any other COMPLETE is NoNegativeTestResult; PENDING, VERIFICATION_REQUIRED and INVALID_TOKEN map one to one; an unknown status is InvalidToken |
| TestResultUseCase.RedeemTestResult | holder/src/test/java/nl/rijksoverheid/ctr/holder/ui/create_qr/usecases/TestResultUseCaseTest.kt:28-340 | a code failing an offline check (shape, token checksum, provider) is InvalidToken; otherwise an HttpException is ServerError with its code, an IOException is NetworkError, and a fetched result is classified |
| TestResultUseCase.OfflineRejectionIgnoresFetch | holder/src/test/java/nl/rijksoverheid/ctr/holder/ui/create_qr/usecases/TestResultUseCaseTest.kt:28-103 | a code rejected offline is InvalidToken whatever the fetch would do, so the network is never consulted for it |
| TestResultUseCase.NegativeOnlyFromCompleteValidResult | holder/src/test/java/nl/rijksoverheid/ctr/holder/ui/create_qr/usecases/TestResultUseCaseTest.kt:106-190 | NegativeTestResult implies the code passed all checks and the fetch returned a COMPLETE, negative and valid result |
| TestResultUseCase.TooFewSegments | holder/src/test/java/nl/rijksoverheid/ctr/holder/ui/create_qr/usecases/TestResultUseCaseTest.kt:42-62 | `dummy` and `dummy-dummy` are InvalidToken for any collaborators |
| TestResultUseCase.TestCodeParses | holder/src/test/java/nl/rijksoverheid/ctr/holder/ui/create_qr/usecases/TestResultUseCaseTest.kt:129 | `provider-B-t1` names provider `provider`, token `B`, checksum `t1` |
| TestResultUseCase.FetchedResultIsClassified | holder/src/test/java/nl/rijksoverheid/ctr/holder/ui/create_qr/usecases/TestResultUseCaseTest.kt:105-131 | with a known provider and an accepted token the fetched result is classified |
| TestResultUseCase.HttpExceptionIsServerError | holder/src/test/java/nl/rijksoverheid/ctr/holder/ui/create_qr/usecases/TestResultUseCaseTest.kt:248-278 | an HttpException during the fetch is ServerError with that code |
| TestResultUseCase.IOExceptionIsNetworkError | holder/src/test/java/nl/rijksoverheid/ctr/holder/ui/create_qr/usecases/TestResultUseCaseTest.kt:280-312 | an IOException during the fetch is NetworkError |
| TestResultUseCase.UnknownProviderOrBadToken | holder/src/test/java/nl/rijksoverheid/ctr/holder/ui/create_qr/usecases/TestResultUseCaseTest.kt:65-103 | no matching provider, or a rejected token, is InvalidToken even though the provider would answer |
| TestResultUseCase.StatusCases | holder/src/test/java/nl/rijksoverheid/ctr/holder/ui/create_qr/usecases/TestResultUseCaseTest.kt:105-340 | the test fixtures: COMPLETE and negative is NegativeTestResult only when valid; COMPLETE and positive is NoNegativeTestResult; VERIFICATION_REQUIRED, INVALID_TOKEN and PENDING map to their variants |
| Text.Split | holder/src/test/java/nl/rijksoverheid/ctr/holder/ui/create_qr/usecases/TestResultUseCaseTest.kt:61 | `split("-")` keeps empty parts: one part more than there are delimiters, no part holds the delimiter, and joining the parts gives the input |
| Text.SplitJoin | holder/src/test/java/nl/rijksoverheid/ctr/holder/ui/create_qr/usecases/TestResultUseCaseTest.kt:129 | splitting the join of delimiter-free parts gives the parts back |
| Text.IntToStringRoundTrip | holder/src/main/java/nl/rijksoverheid/ctr/holder/ui/create_qr/YourEventsFragment.kt:117 | parsing `Int.toString()` gives the number back |
| Text.IntToStringInjective | holder/src/main/java/nl/rijksoverheid/ctr/holder/ui/create_qr/YourEventsFragment.kt:117 | different numbers render differently |
| DigiD.ErrorResult | holder/src/main/java/nl/rijksoverheid/ctr/holder/ui/create_qr/digid/DigiDViewModel.kt:73-86 | never Success; Cancelled exactly for type 0 and code 1; ServerBusy exactly for `login_required` or `saml_authn_failed` when not cancelled; a generic error otherwise |
| DigiD.ResponseResult | holder/src/main/java/nl/rijksoverheid/ctr/holder/ui/create_qr/digid/DigiDViewModel.kt:88-101 | Success carrying the jwt exactly when the jwt exchange returns; a generic error with the thrown exception otherwise |
| DigiD.ActivityResultOutcome | holder/src/main/java/nl/rijksoverheid/ctr/holder/ui/create_qr/digid/DigiDViewModel.kt:56-71 | no intent is Cancelled; an error wins over a response; a response alone is exchanged for a jwt; neither is a generic error with a null-pointer cause |
| DigiD.ActivityResultCases | holder/src/main/java/nl/rijksoverheid/ctr/holder/ui/create_qr/digid/DigiDViewModel.kt:56-107 | Success exactly when the intent has a response, no error, and the exchange returns; Cancelled exactly when there is no intent or the error is the user's cancellation; ServerBusy carries the intent's error |
| DigiD.ErrorTakesPrecedence | holder/src/main/java/nl/rijksoverheid/ctr/holder/ui/create_qr/digid/DigiDViewModel.kt:62-64 | with an error present, the response in the intent does not change the result |
| DigiD.DigiDViewModel.Login | holder/src/main/java/nl/rijksoverheid/ctr/holder/ui/create_qr/digid/DigiDViewModel.kt:39-54 | loading goes true and then false whether or not the call throws; a throw posts one generic error and nothing else is posted |
| DigiD.DigiDViewModel.HandleActivityResult | holder/src/main/java/nl/rijksoverheid/ctr/holder/ui/create_qr/digid/DigiDViewModel.kt:56-71 | posts exactly one result, the one `ActivityResultOutcome` gives, and leaves loading alone |
| DigiD.DigiDViewModel.PostErrorResult | holder/src/main/java/nl/rijksoverheid/ctr/holder/ui/create_qr/digid/DigiDViewModel.kt:73-80 | posts `ErrorResult` of the error |
| DigiD.DigiDViewModel.PostResponseResult | holder/src/main/java/nl/rijksoverheid/ctr/holder/ui/create_qr/digid/DigiDViewModel.kt:88-101 | posts `ResponseResult` of the response |
| DigiD.DigiDViewModel.PostAuthNullResult | holder/src/main/java/nl/rijksoverheid/ctr/holder/ui/create_qr/digid/DigiDViewModel.kt:103-107 | posts a generic error with a null-pointer cause |
| CachedAppConfigUseCase.IsCachedAppConfigValid | appconfig/src/main/java/nl/rijksoverheid/ctr/appconfig/usecases/CachedAppConfigUseCase.kt:32-38 | false for a missing or unreadable file, a null parse or a parser exception; true when the text parses |
| CachedAppConfigUseCase.GetCachedAppConfig | appconfig/src/main/java/nl/rijksoverheid/ctr/appconfig/usecases/CachedAppConfigUseCase.kt:40-51 | the parsed configuration when the cache is valid, the default configuration otherwise |
| CachedAppConfigUseCase.CachedConfigAgreesWithValidity | appconfig/src/main/java/nl/rijksoverheid/ctr/appconfig/usecases/CachedAppConfigUseCase.kt:32-51 | a non-default configuration implies a valid cache; validity is exactly "the file is there and parses" |
| CachedAppConfigUseCase.FindProvider | appconfig/src/main/java/nl/rijksoverheid/ctr/appconfig/usecases/CachedAppConfigUseCase.kt:60 | `firstOrNull`: none exactly when no provider's code is the identifier; otherwise the provider at the first matching position |
| CachedAppConfigUseCase.GetProviderName | appconfig/src/main/java/nl/rijksoverheid/ctr/appconfig/usecases/CachedAppConfigUseCase.kt:59-61 | the name of the first provider with that code in the cached configuration, or `""` when none matches |
| CachedAppConfigUseCase.NoValidCacheNoNames | appconfig/src/main/java/nl/rijksoverheid/ctr/appconfig/usecases/CachedAppConfigUseCase.kt:40-61 | without a valid cache every provider name is `""` |
| CachedAppConfigUseCase.NullIdentifierHasNoName | appconfig/src/main/java/nl/rijksoverheid/ctr/appconfig/usecases/CachedAppConfigUseCase.kt:59-61 | a null identifier matches no provider |
| CachedAppConfigUseCase.MatchIgnoresLaterProviders | appconfig/src/main/java/nl/rijksoverheid/ctr/appconfig/usecases/CachedAppConfigUseCase.kt:60 | providers after a match do not change the result |
| YourEventsFragment.GetFullName | holder/src/main/java/nl/rijksoverheid/ctr/holder/ui/create_qr/YourEventsFragment.kt:494-500 | `""` exactly when there is no holder; otherwise "lastName, firstName", with the infix and a space in front when the infix is neither null nor empty |
| YourEventsFragment.FullNameInfix | holder/src/main/java/nl/rijksoverheid/ctr/holder/ui/create_qr/YourEventsFragment.kt:495-499 | a null and an empty infix give the same name, which always ends in ", " and the first name |
| YourEventsFragment.GetBirthDate | holder/src/main/java/nl/rijksoverheid/ctr/holder/ui/create_qr/YourEventsFragment.kt:502-509 | `""` without a holder, without a birth date, or when the birth date does not parse as an ISO date |
| YourEventsFragment.BirthDateShownOnlyWhenParsed | holder/src/main/java/nl/rijksoverheid/ctr/holder/ui/create_qr/YourEventsFragment.kt:502-509 | a non-empty birth date comes from a holder's parsable birth date |
| YourEventsFragment.HasShownExpiredEvent | holder/src/main/java/nl/rijksoverheid/ctr/holder/ui/create_qr/YourEventsFragment.kt:202-217 | expired only when exactly one positive test or recovery exists among all events |
| YourEventsFragment.SingleOldEventIsExpired | holder/src/main/java/nl/rijksoverheid/ctr/holder/ui/create_qr/YourEventsFragment.kt:203-215 | with exactly one positive test or recovery, the screen is expired exactly when now minus 180 days is after its date |
| YourEventsFragment.TwoEventsAreNotExpired | holder/src/main/java/nl/rijksoverheid/ctr/holder/ui/create_qr/YourEventsFragment.kt:203-205 | two or more positive tests or recoveries are never expired |
| YourEventsFragment.NoPositiveEventIsNotExpired | holder/src/main/java/nl/rijksoverheid/ctr/holder/ui/create_qr/YourEventsFragment.kt:203-205 | without positive tests or recoveries nothing is expired |
| YourEventsFragment.ExpiryIsMonotone | holder/src/main/java/nl/rijksoverheid/ctr/holder/ui/create_qr/YourEventsFragment.kt:210 | what is expired stays expired as the clock advances |
| YourEventsFragment.PresentedAllEvents | holder/src/main/java/nl/rijksoverheid/ctr/holder/ui/create_qr/YourEventsFragment.kt:159-197 | one card per event, for that event, in the order of all protocols' events |
| YourEventsFragment.PresentEvents | holder/src/main/java/nl/rijksoverheid/ctr/holder/ui/create_qr/YourEventsFragment.kt:154-198 | an expired event suppresses all cards; otherwise the nested loops present the cards of all events of all protocols in order |
| YourEventsFragment.HandleButton | holder/src/main/java/nl/rijksoverheid/ctr/holder/ui/create_qr/YourEventsFragment.kt:417-445 | a protocol-2 result is saved as is; vaccinations, negative tests and positive tests with recoveries are saved with event and origin types Vaccination, Test and Recovery |
| YourEventsFragment.SavedTypesCorrespond | holder/src/main/java/nl/rijksoverheid/ctr/holder/ui/create_qr/YourEventsFragment.kt:427-436 | the saved event type and origin type always belong together, and different screens save different origin types |
| YourEventsFragment.ReactTo | holder/src/main/java/nl/rijksoverheid/ctr/holder/ui/create_qr/YourEventsFragment.kt:86-123 | each sync outcome gets exactly its own reaction; the error dialog's code parses back to the HTTP code |
| YourEventsFragment.ErrorDialogIdentifiesCode | holder/src/main/java/nl/rijksoverheid/ctr/holder/ui/create_qr/YourEventsFragment.kt:111-121 | different HTTP codes give different error dialogs |
| VerifierMainFragment.Step | verifier/src/main/java/nl/rijksoverheid/ctr/verifier/VerifierMainFragment.kt:106-118 | without a finished introduction nothing changes and nothing happens; with it the fresh start ends, a refresh happens exactly when it was not a fresh start, and the scanner is launched with the `returnUri` exactly when there is one and no deeplink was handled |
| VerifierMainFragment.RunSpec | verifier/src/main/java/nl/rijksoverheid/ctr/verifier/VerifierMainFragment.kt:55-56 | over any sequence of changes: refreshes equal the finished changes minus one for a fresh start; at most one launch, only with a `returnUri` and no earlier deeplink; a fresh start is never regained |
| VerifierMainFragment.ScannerLaunchedAtMostOnce | verifier/src/main/java/nl/rijksoverheid/ctr/verifier/VerifierMainFragment.kt:113-116 | from the fragment's creation the scanner is launched at most once, and never without a `returnUri` |
| VerifierMainFragment.VerifierMainFragment.OnDestinationChanged | verifier/src/main/java/nl/rijksoverheid/ctr/verifier/VerifierMainFragment.kt:106-118 | the fields and the recorded effects change exactly as `Step` says |

## Left out

- The implementation of `TestResultUseCase.testResult` is not part of this model. The redemption is modelled from `TestResultUseCaseTest.kt`. Some choices are not pinned down by the tests, and the model makes them:
  - a code must have exactly three non-empty `-`-separated segments;
  - the validator receives the second and third segments;
  - the provider is looked up by the first;
  - an unrecognised status is `InvalidToken`.
- TestResultUseCase.RedeemTestResult: the commitment message, secret key and credential creation that follow a negative result are cryptography outside this model.
- Rendering, navigation targets, string resources, dialogs and view binding are left out. This covers every `present*` method except the one for provider events, the footer, the back-button handling and the verifier's drawer menu.
- Coroutines, `viewModelScope` and LiveData threading are left out. Posted values are appended to sequences in posting order.
- Collaborators whose code is not part of this model are parameters:
  - `GreenCardUtil.isExpired`, `ClockDeviationUseCase.hasDeviation` and the number of vaccination events (from `EventGroupEntityUtil`);
  - the dismissed flag of the synced banner, the token validator and the validity check of a fetched result;
  - the Retrofit error-body converter, Moshi parsing, and the AppAuth intent parsing and jwt exchange;
  - ISO date parsing and formatting.
- `AppConfigStorageManager` file I/O: the file is a value that is absent, unreadable or present with its text. `getCachedPublicKeys` only returns the store's stream and is not modelled.
- CachedAppConfigUseCase.GetCachedAppConfig: the `AppConfig` class is not part of this model. The default configuration is taken to have an empty provider list, and the other settings are carried as an uninterpreted map.
- YourEventsFragment.HasShownExpiredEvent: the events' dates are compared as instants. `OffsetDateTime`'s ordering breaks ties between equal instants by local time, and the model does not. The date of a positive test or recovery is taken as always present.
- YourEventsFragment.PresentEvents: the protocol-2 branch (`presentTestResult2`) only renders personal details and is not modelled.
