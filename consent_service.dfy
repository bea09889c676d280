/** src/services/consent.service.ts: the consent record. Two `localStorage` keys (the decision
    and the time it was taken) and a 30-day window determine a `ConsentInfo`; the service holds
    the current `ConsentInfo` and a one-shot initialisation flag. The consent script, the Google
    tag calls and the modal dialog are outside the model: their outcomes, the user's choice and
    the clock are parameters. */
module Consent {
  import opened Common
  import opened JsNumber

  datatype ConsentStatus = Unknown | NotRequired | Required | Obtained

  datatype FormStatus = FormUnknown | Available | Unavailable

  datatype ConsentInfo = ConsentInfo(
    consentStatus: ConsentStatus,
    formStatus: FormStatus,
    canRequestAds: bool,
    isPrivacyOptionsRequired: bool)

  /** The argument of `initialize`; the service accepts it and does not read it. */
  datatype DebugGeography = GeographyDisabled | GeographyEea | GeographyNotEea

  datatype ConsentSettings = ConsentSettings(
    publisherId: string,
    debugGeography: Option<DebugGeography>,
    testDeviceIdentifiers: Option<seq<string>>,
    tagForUnderAgeOfConsent: Option<bool>)

  const ConsentKey: string := "gdpr_consent"
  const ConsentTimeKey: string := "gdpr_consent_time"

  /** 30 days in milliseconds. */
  const ThirtyDays: int := 30 * 24 * 60 * 60 * 1000

  /** The record before anything is known, and after a reset. */
  const InitialInfo: ConsentInfo := ConsentInfo(Unknown, FormUnknown, false, false)

  /** The record once the user has decided (now or within the last 30 days). */
  function ObtainedInfo(granted: bool): ConsentInfo {
    ConsentInfo(Obtained, Unavailable, granted, false)
  }

  /** The record when a new decision is needed. */
  const RequiredInfo: ConsentInfo := ConsentInfo(Required, Available, false, true)

  /** Ads may be requested only with consent obtained. */
  predicate Consistent(info: ConsentInfo) {
    info.canRequestAds ==> info.consentStatus == Obtained
  }

  /** The only records the service ever holds. */
  predicate Reachable(info: ConsentInfo) {
    info == InitialInfo || info == RequiredInfo || info == ObtainedInfo(info.canRequestAds)
  }

  lemma ReachableIsConsistent(info: ConsentInfo)
    requires Reachable(info)
    ensures Consistent(info)
  {
  }

  /** The stored decision is present, its time parses, and it is less than 30 days old. */
  predicate StoredDecisionFresh(items: map<string, string>, now: int) {
    Truthy(Lookup(items, ConsentKey)) && Truthy(Lookup(items, ConsentTimeKey))
    && match ParseInt(items[ConsentTimeKey])
       case None => false
       case Some(time) => now - time < ThirtyDays
  }

  /** `checkConsentStatus()`: the record the stored keys give at time `now`. */
  function CheckConsentStatus(items: map<string, string>, now: int): (info: ConsentInfo)
    ensures Consistent(info) && Reachable(info)
  {
    if StoredDecisionFresh(items, now) then ObtainedInfo(items[ConsentKey] == "granted")
    else RequiredInfo
  }

  /** A fresh stored decision yields OBTAINED, and ads exactly when the value is `'granted'`. */
  lemma FreshDecisionObtained(items: map<string, string>, now: int, time: int)
    requires ConsentKey in items && items[ConsentKey] != ""
    requires ConsentTimeKey in items && ParseInt(items[ConsentTimeKey]) == Some(time)
    requires now - time < ThirtyDays
    ensures CheckConsentStatus(items, now) == ObtainedInfo(items[ConsentKey] == "granted")
    ensures CheckConsentStatus(items, now).canRequestAds <==> items[ConsentKey] == "granted"
  {
  }

  /** A missing key, an unparsable time, or an age of 30 days or more (exactly 30 days
      included) yields REQUIRED. */
  lemma StaleDecisionRequired(items: map<string, string>, now: int)
    requires || !Truthy(Lookup(items, ConsentKey))
             || !Truthy(Lookup(items, ConsentTimeKey))
             || ParseInt(items[ConsentTimeKey]).None?
             || now - ParseInt(items[ConsentTimeKey]).value >= ThirtyDays
    ensures CheckConsentStatus(items, now) == RequiredInfo
  {
  }

  /** A stored time without any digit (for instance `"abc"`) never counts as fresh. */
  lemma NonNumericTimeRequired(items: map<string, string>, now: int)
    requires ConsentTimeKey in items && NoDecimalDigit(items[ConsentTimeKey])
    ensures CheckConsentStatus(items, now) == RequiredInfo
  {
    ParseIntWithoutDigits(items[ConsentTimeKey]);
  }

  /** The storage after `setConsent(granted)` at time `now`: both keys written together. */
  function StoreDecision(items: map<string, string>, granted: bool, now: int): (r: map<string, string>)
    ensures r.Keys == items.Keys + {ConsentKey, ConsentTimeKey}
    ensures r[ConsentKey] == (if granted then "granted" else "denied")
    ensures r[ConsentTimeKey] == IntToString(now)
    ensures forall k :: k in items && k != ConsentKey && k != ConsentTimeKey ==> r[k] == items[k]
  {
    items[ConsentKey := if granted then "granted" else "denied"][ConsentTimeKey := IntToString(now)]
  }

  /** The storage after `resetConsent()`: both keys removed, nothing else touched. */
  function ClearDecision(items: map<string, string>): (r: map<string, string>)
    ensures ConsentKey !in r && ConsentTimeKey !in r
    ensures forall k :: k in items && k != ConsentKey && k != ConsentTimeKey ==> k in r && r[k] == items[k]
    ensures r.Keys <= items.Keys
  {
    items - {ConsentKey, ConsentTimeKey}
  }

  /** Round trip: a decision stored at time `time` reads back as that decision at every `now`
      before `time` + 30 days, and as REQUIRED from then on. */
  lemma StoredDecisionRoundTrip(items: map<string, string>, granted: bool, time: int, now: int)
    ensures now < time + ThirtyDays
        ==> CheckConsentStatus(StoreDecision(items, granted, time), now) == ObtainedInfo(granted)
    ensures now >= time + ThirtyDays
        ==> CheckConsentStatus(StoreDecision(items, granted, time), now) == RequiredInfo
  {
    var r := StoreDecision(items, granted, time);
    var stamp := r[ConsentTimeKey];
    ParseIntOfIntToString(time);
    assert ParseInt(stamp) == Some(time);
    assert Truthy(Lookup(r, ConsentKey)) && Truthy(Lookup(r, ConsentTimeKey));
    assert StoredDecisionFresh(r, now) <==> now < time + ThirtyDays;
  }

  /** After a reset the stored keys say nothing, so the next check asks again. */
  lemma ClearedDecisionRequired(items: map<string, string>, now: int)
    ensures CheckConsentStatus(ClearDecision(items), now) == RequiredInfo
  {
  }

  /** `loadAndShowConsentFormIfRequired` is reached when the form is AVAILABLE and then shows
      the form when consent is REQUIRED. */
  predicate ShowsForm(info: ConsentInfo) {
    info.formStatus == Available && info.consentStatus == Required
  }

  /** The form is shown during initialisation exactly when the stored decision is not fresh. */
  lemma FormShownIffNoFreshDecision(items: map<string, string>, now: int)
    ensures ShowsForm(CheckConsentStatus(items, now)) <==> !StoredDecisionFresh(items, now)
  {
  }

  class ConsentService {
    var isInitialized: bool
    var consentInfo: ConsentInfo
    const storage: LocalStorage

    ghost predicate Valid()
      reads this
    {
      Reachable(consentInfo)
    }

    constructor (storage: LocalStorage)
      ensures Valid()
      ensures !isInitialized && consentInfo == InitialInfo && this.storage == storage
    {
      isInitialized := false;
      consentInfo := InitialInfo;
      this.storage := storage;
    }

    /** `checkConsentStatus()`, run from the consent script's command queue. */
    method CheckStatus(now: int)
      modifies this
      ensures consentInfo == CheckConsentStatus(storage.items, now)
      ensures isInitialized == old(isInitialized)
    {
      var storedConsent := storage.GetItem(ConsentKey);
      var consentTime := storage.GetItem(ConsentTimeKey);
      var isFresh := false;
      if Truthy(storedConsent) && Truthy(consentTime) {
        match ParseInt(consentTime.value)
        case None =>
        case Some(time) => isFresh := now - time < ThirtyDays;
      }
      if isFresh {
        consentInfo := ObtainedInfo(storedConsent.value == "granted");
      } else {
        consentInfo := RequiredInfo;
      }
    }

    /** `setConsent(granted)`: writes the decision and the current time, then the record. */
    method SetConsent(granted: bool, now: int)
      modifies this, storage
      ensures Valid()
      ensures storage.items == StoreDecision(old(storage.items), granted, now)
      ensures consentInfo == ObtainedInfo(granted)
      ensures isInitialized == old(isInitialized)
    {
      var consentValue := if granted then "granted" else "denied";
      storage.SetItem(ConsentKey, consentValue);
      storage.SetItem(ConsentTimeKey, IntToString(now));
      consentInfo := ObtainedInfo(granted);
    }

    /** `showConsentForm()`: the modal settles when the user presses accept or reject (or
        Escape, which rejects) at time `clickTime`. */
    method ShowConsentForm(userAccepts: bool, clickTime: int)
      modifies this, storage
      ensures Valid()
      ensures storage.items == StoreDecision(old(storage.items), userAccepts, clickTime)
      ensures consentInfo == ObtainedInfo(userAccepts)
      ensures isInitialized == old(isInitialized)
    {
      SetConsent(userAccepts, clickTime);
    }

    /** `showPrivacyOptionsForm()`: the same form, so the same outcome. */
    method ShowPrivacyOptionsForm(userAccepts: bool, clickTime: int)
      modifies this, storage
      ensures Valid()
      ensures storage.items == StoreDecision(old(storage.items), userAccepts, clickTime)
      ensures consentInfo == ObtainedInfo(userAccepts)
      ensures isInitialized == old(isInitialized)
    {
      ShowConsentForm(userAccepts, clickTime);
    }

    /** `initialize(settings)`. A second call after a successful one does nothing. Otherwise the
        consent script is loaded and the stored decision checked at `now`; if either step fails
        the error is rethrown and the flag stays false, so a later call tries again. When the
        check asks for a decision the form is shown and the user's choice recorded. */
    method Initialize(settings: ConsentSettings, scriptLoad: Outcome, statusUpdate: Outcome,
                      now: int, userAccepts: bool, clickTime: int) returns (r: Outcome)
      requires Valid()
      modifies this, storage
      ensures Valid()
      ensures old(isInitialized) ==>
                (r == Resolved && isInitialized
                 && consentInfo == old(consentInfo) && storage.items == old(storage.items))
      ensures !old(isInitialized) && (scriptLoad == Rejected || statusUpdate == Rejected) ==>
                (r == Rejected && !isInitialized
                 && consentInfo == old(consentInfo) && storage.items == old(storage.items))
      ensures !old(isInitialized) && scriptLoad == Resolved && statusUpdate == Resolved ==>
                (r == Resolved && isInitialized
                 && var checked := CheckConsentStatus(old(storage.items), now);
                    if ShowsForm(checked) then
                      consentInfo == ObtainedInfo(userAccepts)
                      && storage.items == StoreDecision(old(storage.items), userAccepts, clickTime)
                    else
                      consentInfo == checked && storage.items == old(storage.items))
    {
      if isInitialized {
        return Resolved;
      }
      if scriptLoad == Rejected || statusUpdate == Rejected {
        return Rejected;
      }
      CheckStatus(now);
      if consentInfo.formStatus == Available {
        if consentInfo.consentStatus == Required {
          ShowConsentForm(userAccepts, clickTime);
        }
      }
      isInitialized := true;
      r := Resolved;
    }

    /** `getConsentInfo()`: a copy of the record (a value, so later changes do not reach it). */
    method GetConsentInfo() returns (info: ConsentInfo)
      requires Valid()
      ensures info == consentInfo
      ensures Consistent(info)
    {
      info := consentInfo;
    }

    /** `canShowAds()`: whether ads may be requested, which requires consent obtained. */
    method CanShowAds() returns (allowed: bool)
      requires Valid()
      ensures allowed == consentInfo.canRequestAds
      ensures allowed ==> consentInfo.consentStatus == Obtained
    {
      allowed := consentInfo.canRequestAds;
    }

    /** `resetConsent()`: both keys removed and the initial record restored; the
        initialisation flag is left as it was. */
    method ResetConsent()
      modifies this, storage
      ensures Valid()
      ensures storage.items == ClearDecision(old(storage.items))
      ensures consentInfo == InitialInfo
      ensures isInitialized == old(isInitialized)
    {
      storage.RemoveItem(ConsentKey);
      storage.RemoveItem(ConsentTimeKey);
      consentInfo := InitialInfo;
    }
  }
}
