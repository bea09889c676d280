# Age calculator app: consent, ads and calendar arithmetic in Dafny

This project models the core of a Next.js/Capacitor age-calculator web and mobile app, and
proves properties of the model. The model covers:

- **GDPR consent.** A singleton service keeps a `ConsentInfo` record and decides from two
  `localStorage` keys (`gdpr_consent`, `gdpr_consent_time`) and a 30-day window whether a new
  decision is needed. A React context mirrors the record. A banner and an opt-out control
  write and clear the decision.
- **Ads.** A singleton `AdMobService` initialises the native AdMob plugin lazily, at most
  once. It picks unit ids per platform and swallows the plugin's ad failures. The `useAdMob`
  hook keeps four flags on top of it and re-prepares full-screen ads with a timer. The
  `AdMobProvider` gates every ad behind `showAds`, which follows `usePlatform`'s `isMobile`.
- **App Tracking Transparency.** The status, a `localStorage` fallback, and the iOS-only
  plugin calls.
- **Configuration.** Typed configuration read from build-time environment variables:
  `getEnvVar`, `getEnvBoolean`, `getEnvArray` and `admobConfig`.
- **Language.** The effect that keeps the stored interface language valid.
- **Calendar arithmetic.**
  - The age form: years, months and days with two borrow steps, and the totals.
  - The birthday countdown.
  - The next birthday and next age of the age sentences.

How the model is built:

- **Objects the source mutates are classes.** Examples are `ConsentService`, `AdMobService`,
  the hook, the two providers, the banner and the age form. Each has a `Valid()` invariant
  that every method preserves. `localStorage` is one shared class over a
  `map<string, string>`. The native plugin is a class whose state is the log of calls made to
  it.
- **Outside results and the clock are parameters.** The outcomes of the consent script, the
  plugin and the user's dialog answers are method parameters. So is the clock: a millisecond
  count, or a `DateTime` for the calendar code.
- **`setTimeout` callbacks are a queue.** Callbacks wait in a first-in first-out queue of
  pending timers.
- **The JavaScript library is modelled explicitly.** Separate modules cover:
  - `parseInt` (section 19.2.5 of ECMA-262);
  - integer `toString`;
  - `trim`, `split`, `join` and ASCII `toLowerCase`;
  - `Date`: day numbers as in section 21.4.1 of ECMA-262, the normalisation done by
    `new Date(y, m, d)`, and `getTime()` in one fixed time zone.

## Model

| member | source | states |
|---|---|---|
| Common.LocalStorage.GetItem | src/services/consent.service.ts:126-127 | `getItem` yields the stored string, or `None` (`null`) for a missing key |
| Common.LocalStorage.SetItem | src/services/consent.service.ts:277-278 | `setItem` overwrites exactly that key |
| Common.LocalStorage.RemoveItem | src/services/consent.service.ts:341-342 | `removeItem` deletes exactly that key |
| JsString.SplitJoin | src/config/env.ts:57-58 | splitting the comma-join of comma-free items gives back the items |
| JsString.Split | src/config/env.ts:58 | at least one piece, none containing the separator |
| JsString.SplitAppend | src/config/env.ts:58 | a separator between two strings separates their pieces |
| JsString.Trim | src/config/env.ts:59 | the result has no white space at either end, is empty exactly for all-white-space input, and leaves a trimmed string as it is |
| JsString.ToLower | src/config/env.ts:50 | same length, each ASCII upper-case letter lowered and every other character kept |
| JsString.JoinSplit | src/config/env.ts:57-58 | joining the pieces of `split` gives back the original string |
| JsNumber.ParseInt | src/services/consent.service.ts:136 | white space alone is NaN; a negative number only after a leading `-`, which never gives a positive one |
| JsNumber.ParseIntOfIntToString | src/services/consent.service.ts:136 | `parseInt` of the decimal text of any integer (as stored at line 278) yields that integer |
| JsNumber.ParseIntWithoutDigits | src/services/consent.service.ts:136 | a string with no decimal digit parses as NaN |
| JsNumber.CeilDiv | src/components/BirthdayCountdown/BirthdayCountdown.tsx:46 | `Math.ceil(a / b)` is the least `q` with `a <= q * b` |
| Calendar.DayNumberOrder | src/components/AgeCalculator/AgeCalculator.tsx:50 | for valid dates, day numbers compare as the (year, month, day) order, and are equal exactly for equal dates |
| Calendar.TimeOrder | src/components/AgeCalculator/AgeCalculator.tsx:50 | moments compare by their dates first |
| Calendar.TimeInjective | src/components/BirthdayCountdown/BirthdayCountdown.tsx:45 | distinct valid moments have distinct `getTime()` |
| Calendar.NewDate | src/components/AgeCalculator/AgeCalculator.tsx:63 | `new Date(y, m, d)`, for a year outside 0..99, is a valid date whose day number is `MakeDay(y, m, d)` |
| Calendar.Normalize | src/components/AgeCalculator/AgeCalculator.tsx:63 | a day counted from the first of a month, moved into the month it falls in, is a valid date with that day number |
| Calendar.BeforeDayNumber | src/components/AgeCalculator/AgeCalculator.tsx:50 | a date earlier in the calendar has the smaller day number |
| Calendar.YearLength | src/components/AgeCalculator/AgeCalculator.tsx:73-74 | consecutive years' first days are 365 or 366 days apart, as the leap rule says |
| Calendar.NewDateDayZero | src/components/AgeCalculator/AgeCalculator.tsx:63-64 | `new Date(y, m, 0)` is the last day of the month before `m` |
| Calendar.Anniversary | src/components/BirthdayCountdown/BirthdayCountdown.tsx:21-25 | `new Date(y, birth.getMonth(), birth.getDate())`, for a year outside 0..99, is the same month and day in year `y`, or 1 March for a 29 February birth in a common year |
| Calendar.PreviousMonth | src/components/AgeCalculator/AgeCalculator.tsx:63 | the month before `m` ends where month `m` starts |
| Calendar.NextYearAnniversaryAfter | src/components/BirthdayCountdown/BirthdayCountdown.tsx:29-33 | next year's anniversary lies strictly after now |
| Env.GetEnvVar | src/config/env.ts:37-44 | the value when set and non-empty, otherwise the default |
| Env.GetEnvBoolean | src/config/env.ts:47-51 | unset or empty gives the default; otherwise true exactly for a case-insensitive `"true"` |
| Env.TrimEach | src/config/env.ts:59 | element-wise `trim`, same length |
| Env.DropEmpty | src/config/env.ts:60 | a string is in the result exactly when it is a non-empty item of the input |
| Env.DropEmptyAppend | src/config/env.ts:60 | the filter keeps order: on a concatenation it gives the concatenation of its results |
| Env.TrimEachAppend | src/config/env.ts:59 | the element-wise `trim` distributes over a concatenation |
| Env.ListItems | src/config/env.ts:57-60 | a string is an item exactly when it is a non-empty trimmed comma-separated piece of the value |
| Env.ListItemsOfPiece | src/config/env.ts:57-60 | comma-free text is one item, its trimmed form, or none when that is empty |
| Env.ListItemsAppend | src/config/env.ts:57-60 | the items before a comma come first, in order, then those after it |
| Env.GetEnvArray | src/config/env.ts:54-61 | unset or empty gives the default; otherwise exactly the non-empty trimmed pieces of the value are elements |
| Env.GetEnvArrayElements | src/config/env.ts:54-61 | every item a set variable gives is non-empty, trimmed and comma-free |
| Env.GetEnvArrayOfSeparators | src/config/env.ts:54-61 | a non-empty value of only commas and white space gives `[]`, not the default |
| Env.GetEnvArrayOfJoin | src/config/env.ts:54-61 | round trip: the comma-joined text of a list of clean items parses back to that list |
| Env.IsProduction | src/config/env.ts:69-70 | true exactly when the environment name is `production` |
| Env.IsDevelopment | src/config/env.ts:129-132 | true exactly when the environment name is `development`, hence when unset; never together with production |
| Env.LoadAdMobConfig | src/config/env.ts:64-124 | testing mode equals initialise-for-testing; with nothing set it defaults to testing mode, `["DEVICE_ID_HERE"]` and the published test banner ids |
| Consent.ReachableIsConsistent | src/services/consent.service.ts:33-38 | every record the service can hold only allows ads with consent obtained |
| Consent.CheckConsentStatus | src/services/consent.service.ts:124-153 | the record from storage is consistent and one of the three reachable records |
| Consent.StoredDecisionFresh | src/services/consent.service.ts:133-137 | both keys truthy, and the stored time parses and is less than 30 days before now; its consequences are the three rows below |
| Consent.FreshDecisionObtained | src/services/consent.service.ts:133-143 | a decision younger than 30 days gives OBTAINED, with ads exactly for `'granted'` |
| Consent.StaleDecisionRequired | src/services/consent.service.ts:133-151 | a missing key, an unparsable time, or an age of 30 days or more gives REQUIRED |
| Consent.NonNumericTimeRequired | src/services/consent.service.ts:136 | a time without digits never counts as fresh (NaN comparison) |
| Consent.StoreDecision | src/services/consent.service.ts:273-278 | `setConsent` writes both keys (decision and time text) and nothing else |
| Consent.ClearDecision | src/services/consent.service.ts:340-343 | `resetConsent` removes both keys and nothing else |
| Consent.StoredDecisionRoundTrip | src/services/consent.service.ts:124-153 | a decision stored at `t` reads back as itself before `t` + 30 days and as REQUIRED from then on |
| Consent.ClearedDecisionRequired | src/services/consent.service.ts:340-350 | after a reset the next check asks again |
| Consent.FormShownIffNoFreshDecision | src/services/consent.service.ts:58-62 | initialisation shows the form exactly when no fresh decision is stored |
| Consent.ConsentService.CheckStatus | src/services/consent.service.ts:124-153 | the record becomes `CheckConsentStatus` of the storage and the clock |
| Consent.ConsentService.SetConsent | src/services/consent.service.ts:273-286 | storage becomes `StoreDecision`, the record OBTAINED with ads as granted |
| Consent.ConsentService.ShowConsentForm | src/services/consent.service.ts:167-171 | the user's accept or reject is stored through `setConsent` |
| Consent.ConsentService.ShowPrivacyOptionsForm | src/services/consent.service.ts:326-328 | the same as the consent form |
| Consent.ConsentService.Initialize | src/services/consent.service.ts:49-73 | once initialised, nothing changes; a failing script or update rejects and leaves everything, so a later call retries; otherwise the record is checked, the form is shown when required, and the flag is set |
| Consent.ConsentService.GetConsentInfo | src/services/consent.service.ts:312-314 | a copy of the current record, which is consistent |
| Consent.ConsentService.CanShowAds | src/services/consent.service.ts:319-321 | `canRequestAds`, which implies OBTAINED |
| Consent.ConsentService.ResetConsent | src/services/consent.service.ts:340-350 | both keys removed, the initial record restored, the flag kept |
| AdMob.NativePlatformOf | src/services/admob.service.ts:41-44 | iOS exactly for `"ios"`; every other platform, `"web"` included, is Android |
| AdMob.DefaultRequestsUseTestUnits | src/services/admob.service.ts:50-73 | with nothing configured, requests use Google's test units in testing mode with no margin |
| AdMob.HasInitializedAppend | src/services/admob.service.ts:24-39 | a log has a successful initialise exactly when its prefix does or the new call is one |
| AdMob.LazyCallsKeepInvariant | src/services/admob.service.ts:50-68 | one lazily-initialising request keeps every ad-unit request after a successful initialise, and records an initialisation exactly when there was one or the new one succeeded |
| AdMob.FirstUnitRequestFollowsInitialize | src/services/admob.service.ts:50-56 | in a log satisfying the service invariant, a successful initialise precedes every ad-unit request |
| AdMob.UnitsAfterInitializeOfIndexForm | src/services/admob.service.ts:50-56 | conversely, a log in which a successful initialise precedes every ad-unit request satisfies the invariant |
| AdMob.NativeAdMob.Invoke | src/services/admob.service.ts:28-31 | a plugin call is appended to the log |
| AdMob.AdMobService.GetPlatform | src/services/admob.service.ts:41-44 | iOS exactly on `"ios"` |
| AdMob.AdMobService.Initialize | src/services/admob.service.ts:24-39 | at most one successful plugin initialise; a failure rejects and leaves the flag false |
| AdMob.AdMobService.RequestUnit | src/services/admob.service.ts:53-55 | lazy initialisation, then the request only when initialised |
| AdMob.AdMobService.ShowBanner | src/services/admob.service.ts:50-73 | lazy initialisation, then a standard banner with margin 0 at the position |
| AdMob.AdMobService.PrepareInterstitial | src/services/admob.service.ts:93-111 | lazy initialisation, then the platform's interstitial unit |
| AdMob.AdMobService.PrepareReward | src/services/admob.service.ts:122-140 | lazy initialisation, then the platform's reward unit |
| AdMob.AdMobService.HideBanner | src/services/admob.service.ts:75-82 | one plugin call, no initialisation |
| AdMob.AdMobService.RemoveBanner | src/services/admob.service.ts:84-91 | one plugin call, no initialisation |
| AdMob.AdMobService.ShowInterstitial | src/services/admob.service.ts:113-120 | one plugin call, with no readiness check |
| AdMob.AdMobService.ShowReward | src/services/admob.service.ts:142-149 | one plugin call |
| UseAdMob.AfterShowBanner | src/hooks/useAdMob.ts:28-39 | the banner is visible afterwards exactly when it was or the hook is initialised; flag consistency is kept |
| UseAdMob.AfterPrepareInterstitial | src/hooks/useAdMob.ts:59-69 | ready afterwards exactly when it was or the hook is initialised |
| UseAdMob.AfterPrepareReward | src/hooks/useAdMob.ts:83-93 | ready afterwards exactly when it was or the hook is initialised |
| UseAdMob.ShowThenTimerRestoresReadiness | src/hooks/useAdMob.ts:71-81 | showing an interstitial and then running its timer restores the flags |
| UseAdMob.AdMobHook.InitializeAdMob | src/hooks/useAdMob.ts:11-26 | the mount: the flag follows the service; nothing is prepared |
| UseAdMob.AdMobHook.InitializeAdMobAndPrepare | src/hooks/useAdMob.ts:16-26 | the handler with current state: once initialised, both ads are prepared |
| UseAdMob.AdMobHook.ShowBanner | src/hooks/useAdMob.ts:28-39 | nothing before initialisation; then the service shows the banner and it is marked visible |
| UseAdMob.AdMobHook.HideBanner | src/hooks/useAdMob.ts:41-48 | the plugin is called and the banner is marked hidden |
| UseAdMob.AdMobHook.RemoveBanner | src/hooks/useAdMob.ts:50-57 | the plugin is called and the banner is marked hidden |
| UseAdMob.AdMobHook.PrepareInterstitial | src/hooks/useAdMob.ts:59-69 | once initialised, the interstitial is requested and marked ready |
| UseAdMob.AdMobHook.PrepareReward | src/hooks/useAdMob.ts:83-93 | once initialised, the reward ad is requested and marked ready |
| UseAdMob.AdMobHook.ShowInterstitial | src/hooks/useAdMob.ts:71-81 | only a ready ad is shown; it is used up and a re-prepare timer is queued |
| UseAdMob.AdMobHook.ShowReward | src/hooks/useAdMob.ts:95-105 | only a ready ad is shown; it is used up and a re-prepare timer is queued |
| UseAdMob.AdMobHook.FireTimer | src/hooks/useAdMob.ts:77 | the oldest timer runs its prepare call |
| UseAdMob.MountAsWritten | src/hooks/useAdMob.ts:11-26 | after a successful mount the hook is initialised with neither ad ready |
| UseAdMob.MountCorrected | src/hooks/useAdMob.ts:16-26 | with current-state prepares, both ads are ready after mount |
| Platform.DetectPlatform | src/hooks/usePlatform.ts:23-37 | native ⇔ not web; mobile ⇔ native or a window at most 768 pixels wide; iOS/Android by name |
| Platform.DetectedIsCoherent | src/hooks/usePlatform.ts:14-37 | every answer, the initial one included, is coherent |
| Platform.DesktopIsNotMobile | src/hooks/usePlatform.ts:26-27 | a wide or missing window off native is not mobile |
| AdMobProvider.AdMobContextProvider.PlatformChanged | src/providers/AdMobProvider.tsx:39-48 | `showAds` becomes `isMobile` |
| AdMobProvider.AdMobContextProvider.ShowBanner | src/providers/AdMobProvider.tsx:52-56 | the hook's bottom-centre banner only when ads are shown |
| AdMobProvider.AdMobContextProvider.HideBanner | src/providers/AdMobProvider.tsx:57-61 | the hook's hide only when ads are shown |
| AdMobProvider.AdMobContextProvider.RemoveBanner | src/providers/AdMobProvider.tsx:62-66 | the hook's remove only when ads are shown |
| AdMobProvider.AdMobContextProvider.ShowInterstitial | src/providers/AdMobProvider.tsx:67-71 | only when ads are shown and the interstitial is ready |
| AdMobProvider.AdMobContextProvider.ShowReward | src/providers/AdMobProvider.tsx:72-76 | only when ads are shown and the reward ad is ready |
| AdMobProvider.DesktopMakesNoPluginCalls | src/providers/AdMobProvider.tsx:39-76 | on a desktop browser none of the provider's wrapped ad operations reaches the plugin |
| AppTracking.ParseStatus | src/services/app-tracking.service.ts:31-37 | naming a parsed status gives back the raw string |
| AppTracking.ParseStatusName | src/services/app-tracking.service.ts:37 | parsing a status's name gives back the status |
| AppTracking.StatusOffIos | src/services/app-tracking.service.ts:50-66 | off native iOS always authorised; on iOS a failed query with nothing stored is not determined |
| AppTracking.StoredStatusFallback | src/services/app-tracking.service.ts:58-64 | a stored status is what a failing query falls back to |
| AppTracking.AppTrackingService.RequestTrackingPermission | src/services/app-tracking.service.ts:24-45 | authorised off iOS; on iOS the answer, stored; a failure is denied and stores nothing |
| AppTracking.AppTrackingService.GetTrackingStatus | src/services/app-tracking.service.ts:50-66 | the plugin's answer, else the stored status, else not determined; authorised off iOS |
| AppTracking.AppTrackingService.CanShowAds | src/services/app-tracking.service.ts:72-75 | exactly when the status is authorised |
| AppTracking.AppTrackingService.NeedsTrackingPrompt | src/services/app-tracking.service.ts:80-87 | never off iOS; on iOS exactly when not determined |
| AppTracking.AppTrackingService.Initialize | src/services/app-tracking.service.ts:93-103 | the flag is always set |
| ConsentProvider.InitSettings | src/providers/ConsentProvider.tsx:59-71 | publisher id or `test-publisher-id`, EEA geography in testing mode, the testing devices, no under-age tag |
| ConsentProvider.DefaultInitSettings | src/providers/ConsentProvider.tsx:59-71 | with nothing configured, test publisher and EEA |
| ConsentProvider.ConsentContextProvider.InitializeConsent | src/providers/ConsentProvider.tsx:57-81 | the record is copied only on success; initialised on both paths |
| ConsentProvider.ConsentContextProvider.ConsentChanged | src/providers/ConsentProvider.tsx:46-55 | the listener copies the service record |
| ConsentProvider.ConsentContextProvider.ShowConsentForm | src/providers/ConsentProvider.tsx:83-90 | the user's answer becomes the record of service and context |
| ConsentProvider.ConsentContextProvider.ShowPrivacyOptions | src/providers/ConsentProvider.tsx:92-99 | the same for the privacy options form |
| ConsentProvider.ConsentContextProvider.ResetConsent | src/providers/ConsentProvider.tsx:101-104 | keys cleared; context and service back to the initial record |
| ConsentProvider.ConsentContextProvider.CanShowAds | src/providers/ConsentProvider.tsx:109 | the service's answer, which implies OBTAINED |
| ConsentBanner.MountDecisionFor | src/components/ConsentBanner/ConsentBanner.tsx:18-47 | prompt ⇔ nothing stored or a read error; ads ⇔ `'granted'`; otherwise nothing |
| ConsentBanner.ConsentBannerView.Mount | src/components/ConsentBanner/ConsentBanner.tsx:15-16 | marks the client |
| ConsentBanner.ConsentBannerView.MountTimer | src/components/ConsentBanner/ConsentBanner.tsx:18-47 | acts on the mount decision: shows the prompt, shows the banner ad, or leaves everything |
| ConsentBanner.ConsentBannerView.ShowFormRequested | src/components/ConsentBanner/ConsentBanner.tsx:51-53 | opens the prompt |
| ConsentBanner.ConsentBannerView.PrivacyOptionsRequested | src/components/ConsentBanner/ConsentBanner.tsx:55-57 | opens the prompt |
| ConsentBanner.ConsentBannerView.HandleAccept | src/components/ConsentBanner/ConsentBanner.tsx:78-90 | `'granted'` is stored for the next 30 days, the banner ad requested, and the prompt closed; neither service's initialised flag changes |
| ConsentBanner.ConsentBannerView.HandleReject | src/components/ConsentBanner/ConsentBanner.tsx:92-97 | `'denied'` is stored, the prompt closes, and no ad call is made; the consent service's initialised flag is kept |
| OptOutLink.Visible | src/components/OptOutLink/OptOutLink.tsx:23-28 | the render condition: not NOT_REQUIRED and ads allowed; what it means for reachable records is the next row |
| OptOutLink.VisibleIffGranted | src/components/OptOutLink/OptOutLink.tsx:23-28 | among reachable records the control shows exactly for obtained-and-granted |
| OptOutLink.HandleOptOut | src/components/OptOutLink/OptOutLink.tsx:30-53 | the link opens `/opt-out`; on confirmation the button removes the banner, resets consent and reloads, in order, the consent storage untouched at the removal and the removal logged before the reset, leaving both the context's and the service's record initial and their initialised flags kept; the link and declining change neither the consent state (context and service records, flags, storage) nor the hook (flags, timers, plugin log) |
| AppProviders.NormalizedStore | src/app/providers.tsx:12-18 | the stored language ends in {tr, en}; a supported one is untouched, anything else becomes `tr` |
| AppProviders.NormalizedStoreIdempotent | src/app/providers.tsx:12-18 | running the effect twice equals running it once |
| AppProviders.NormalizeLanguage | src/app/providers.tsx:12-18 | the storage after the effect, and `changeLanguage('tr')` exactly when unsupported |
| AgeCalculator.DayZeroIsPreviousMonthLength | src/components/AgeCalculator/AgeCalculator.tsx:63-64 | `new Date(y, m, 0).getDate()` is the length of the month before `m` |
| AgeCalculator.AgeFields | src/components/AgeCalculator/AgeCalculator.tsx:57-70 | for two real dates, months in 0..11, days at most 30, and days per the borrow |
| AgeCalculator.AgeYearsNonNegative | src/components/AgeCalculator/AgeCalculator.tsx:50-70 | a birth moment not after today gives non-negative years |
| AgeCalculator.AgeBetween | src/components/AgeCalculator/AgeCalculator.tsx:57-76 | `years*12 + months` is the number of whole months between the dates; total hours are whole sixties of minutes and total days whole twenty-fours of hours |
| AgeCalculator.NegativeDaysExample | src/components/AgeCalculator/AgeCalculator.tsx:59-65 | 31 January to 1 March in a common year gives 1 month and -2 days |
| AgeCalculator.CorrectedDaysInRange | src/components/AgeCalculator/AgeCalculator.tsx:59-65 | the corrected day count lies in 0..30 and agrees whenever the birth day exists in the previous month |
| AgeCalculator.AgeCalculatorForm.SetBirthDate | src/components/AgeCalculator/AgeCalculator.tsx:113 | the picker's value, a real moment or an Invalid Date, replaces the birth date |
| AgeCalculator.AgeCalculatorForm.CalculateAge | src/components/AgeCalculator/AgeCalculator.tsx:41-86 | no date → `selectBirthDate`; an Invalid Date → error cleared and all six fields NaN; a birth after now → `futureDate` (result kept); otherwise the error is cleared and the result is `AgeBetween` |
| AgeCalculator.AgeCalculatorForm.HandleReset | src/components/AgeCalculator/AgeCalculator.tsx:88-92 | date and result cleared, error emptied |
| BirthdayCountdown.NextBirthday | src/components/BirthdayCountdown/BirthdayCountdown.tsx:21-34 | this year's anniversary, moved to next year exactly when strictly before now; never before now |
| BirthdayCountdown.DaysUntilBirthday | src/components/BirthdayCountdown/BirthdayCountdown.tsx:17-49 | today ⇔ same day and month, with 0 days; otherwise the rounded-up days, 0 only when the next birthday's midnight is now |
| BirthdayCountdown.ZeroDaysNotTodayExample | src/components/BirthdayCountdown/BirthdayCountdown.tsx:28 | a 29 February birth at 1 March 00:00:00.000 of 2023 gives 0 days and not today |
| BirthdayCountdown.ZeroDaysNotTodayOnlyThen | src/components/BirthdayCountdown/BirthdayCountdown.tsx:28-48 | that is the only way to get 0 days off the birthday |
| BirthdayCountdown.CountdownIgnoresBirthYear | src/components/BirthdayCountdown/BirthdayCountdown.tsx:21-39 | the birth year plays no part |
| BirthdayCountdown.CorrectedDaysUntilBirthday | src/components/BirthdayCountdown/BirthdayCountdown.tsx:28 | with `<=`, the count is at least 1 whenever it is not the birthday |
| BirthdayCountdown.CorrectionAgreesElsewhere | src/components/BirthdayCountdown/BirthdayCountdown.tsx:28 | the correction changes nothing except when this year's midnight is now |
| AgeExpressions.GetNextBirthdayInfo | src/components/AgeExpressions/AgeExpressions.tsx:31-44 | the anniversary this year or next, moved exactly when its midnight is not after now, so always after now; the age is its year minus the birth year |
| AgeExpressions.NextAgePositive | src/components/AgeExpressions/AgeExpressions.tsx:34-42 | for a birth not after now, the next age is at least 1 |
| AgeExpressions.Params | src/components/AgeExpressions/AgeExpressions.tsx:46-55 | `age` and `years` both carry the completed years; months and days pass through; next fields from the info |
| AgeExpressions.NextAgeFollowsAge | src/components/AgeExpressions/AgeExpressions.tsx:34-55 | with the calculator's result for the same moments, the next age is the completed years plus one |

## Left out

- The consent modal's construction: the DOM, styles, buttons and the Escape key handler. The
  user's answer, and the moment of the click, are parameters.
- Loading the consent script and the `googletag.cmd` queue. Both become success-or-failure
  parameters. The model does not capture a queue callback that never runs, which would leave
  `initialize` pending forever. That may be the usual case: when `window.googletag` is absent
  the service installs a stub whose `cmd` is a plain array, and draining it is up to Google's
  scripts, which are not part of this model.
- The `gtag` and `setPrivacySettings` calls made by `setConsent`. They go to foreign scripts
  and change no state of the app.
- `getPublisherId`, which no modelled operation calls.
- The native AdMob plugin, the ATT plugin and Capacitor's platform queries. Their answers are
  parameters. The plugin's own ad failures are caught by the service, so they are not
  modelled.
- Real time: the clock is a parameter. The 100 ms and 1000 ms delays of `setTimeout` become
  queued steps: `MountTimer` and `FireTimer`.
- Calendar.NewDate: ECMA-262's MakeFullYear, which reads a year in 0..99 as 1900 + y, is not
  applied, because every year the components pass is the clock's current year (plus one);
  the `Anniversary`, `NewDateDayZero` and birthday results therefore hold as stated only for
  years outside 0..99.
- Time zones and daylight-saving changes: the `Date` model uses one fixed zone with 24-hour
  days.
- Floating point: millisecond counts are integers, so precision beyond 2^53 is not modelled.
- `date-fns` formatting and i18n `t()` messages: the date itself is kept, and error messages
  are identified by their keys.
- `toLowerCase` on non-ASCII letters: only ASCII letters are folded.
- `localStorage.setItem` throwing (quota, private mode): only `getItem` failing in the banner's
  mount timer is modelled.
- Interleaving of `await`s between handlers: each handler runs to completion.
- The banner's mount effect re-running on every new `showBanner` identity: one mount is
  modelled.
- `canShowAdsSync` in the consent context: it does not exist on the service, so the call
  `consentService.canShowAdsSync()` at src/providers/ConsentProvider.tsx:110 throws a
  `TypeError` on every render of the provider; `ConsentContextProvider` models the provider
  without that field. `disableAds` in
  the ad provider: it is not a configuration field, so `!disableAds` is always true.
- `setConsent` being private in TypeScript while the banner calls it: only a type-level
  matter.
- The ad provider's pass-through of the hook's other members: its prepare functions and
  flags are the hook's own.
- The hook's `catch` branches in `showBanner`, `prepareInterstitial` and `prepareReward`: the
  service swallows the plugin's failures and is already initialised there, so none of these
  branches can be reached.
- The birthday countdown's `currentAge` prop and the birth year: neither is read
  (`CountdownIgnoresBirthYear`).
- Rendering-only components, the debug panel, and build and type configuration.
- AgeCalculator.AgeCalculatorForm.CalculateAge: `new Date(birthDate)` copies the picker's
  date unchanged. The picker's `maxDate` is not modelled, so the future-date error path is
  kept reachable. The all-NaN result of an Invalid Date is the single value `AllNaN`, since
  the model's numbers have no NaN.

## Findings

| source | as written | input that shows it | evidently intended | confidence | as-written member | corrected member |
|---|---|---|---|---|---|---|
| src/components/AgeCalculator/AgeCalculator.tsx:61-65 | the day borrow subtracts the birth day from the previous month's length even when that month is shorter than the birth day | birth 31 January 2023, today 1 March 2023: 1 month and -2 days | a day count in 0..30, with the previous month's last day standing in for a missing birth day | not executed | AgeCalculator.NegativeDaysExample | AgeCalculator.CorrectedDaysInRange |
| src/components/BirthdayCountdown/BirthdayCountdown.tsx:28 | `nextBirthday < today` keeps this year's birthday when its midnight is exactly now, although the day test says it is not the birthday | birth 29 February 2000, now 1 March 2023 00:00:00.000: `isToday` false and 0 days | at least 1 day whenever it is not the birthday (`<=`, as AgeExpressions.tsx:36 compares) | not executed | BirthdayCountdown.ZeroDaysNotTodayExample | BirthdayCountdown.CorrectedDaysUntilBirthday |
| src/hooks/useAdMob.ts:16-22 | the mount runs the first render's `initializeAdMob`, whose `prepareInterstitial` and `prepareReward` still see `isInitialized === false` and return at once | a mount whose plugin initialise succeeds | both full-screen ads prepared once initialised | not executed | UseAdMob.MountAsWritten | UseAdMob.MountCorrected |

The age form, the countdown and the hook keep the behaviour as written, because that is what
the app does. The corrected definitions sit beside them with their properties proved. Nothing
else in the model depends on the day count or the countdown. The corrected hook mount uses
`InitializeAdMobAndPrepare`.
