/** src/components/ConsentBanner/ConsentBanner.tsx: the in-page consent prompt. It has its own
    `useAdMob` instance (sharing only the service singleton with the rest of the app) and reads
    and writes `localStorage` directly as well as through the consent service. The 100 ms
    mount timer is the `MountTimer` step; the effect's re-runs on later renders are not
    modelled. */
module ConsentBanner {
  import opened Common
  import opened Consent
  import opened AdMob
  import opened UseAdMob

  /** What the mount timer does, given the stored `gdpr_consent` value (or a failing read). */
  datatype MountDecision = ShowPrompt | StartAds | LeaveAsIs

  function MountDecisionFor(stored: Option<string>, readFails: bool): (d: MountDecision)
    ensures readFails ==> d == ShowPrompt
    ensures !readFails ==> (d == ShowPrompt <==> !Truthy(stored))
    ensures !readFails ==> (d == StartAds <==> stored == Some("granted"))
    ensures !readFails ==> (d == LeaveAsIs <==> Truthy(stored) && stored != Some("granted"))
  {
    if readFails then ShowPrompt
    else if !Truthy(stored) then ShowPrompt
    else if stored.value == "granted" then StartAds
    else LeaveAsIs
  }

  class ConsentBannerView {
    var showConsentBanner: bool
    var isClient: bool
    const storage: LocalStorage
    const consent: ConsentService
    const adMob: AdMobHook

    ghost predicate Valid()
      reads this, consent, adMob, adMob.service, adMob.service.plugin
    {
      consent.storage == storage && consent.Valid() && adMob.Valid()
    }

    constructor (consent: ConsentService, adMob: AdMobHook)
      requires consent.Valid() && adMob.Valid()
      ensures Valid()
      ensures !showConsentBanner && !isClient
      ensures this.storage == consent.storage && this.consent == consent && this.adMob == adMob
    {
      showConsentBanner := false;
      isClient := false;
      storage := consent.storage;
      this.consent := consent;
      this.adMob := adMob;
    }

    /** The prompt is on screen only on the client and only while its flag is set. */
    predicate Renders()
      reads this
    {
      isClient && showConsentBanner
    }

    /** The mount effect: marks the component as running on the client (the timer it sets is
        `MountTimer`). */
    method Mount()
      modifies this
      ensures isClient && showConsentBanner == old(showConsentBanner)
    {
      isClient := true;
    }

    /** The mount timer: no stored decision (or a storage error) shows the prompt, a stored
        `'granted'` starts the banner ad, and any other value leaves everything as is. */
    method MountTimer(readFails: bool)
      requires Valid()
      modifies this, adMob, adMob.service, adMob.service.plugin
      ensures Valid()
      ensures isClient == old(isClient) && adMob.timers == old(adMob.timers)
      ensures MountDecisionFor(Lookup(storage.items, ConsentKey), readFails) == ShowPrompt ==>
                (showConsentBanner && adMob.Flags() == old(adMob.Flags())
                 && adMob.service.plugin.calls == old(adMob.service.plugin.calls))
      ensures MountDecisionFor(Lookup(storage.items, ConsentKey), readFails) == StartAds ==>
                (showConsentBanner == old(showConsentBanner)
                 && adMob.Flags() == AfterShowBanner(old(adMob.Flags()))
                 && adMob.service.plugin.calls == old(adMob.service.plugin.calls)
                      + (if old(adMob.isInitialized)
                         then [BannerCall(adMob.service.config, adMob.service.platformName, BottomCenter)]
                         else []))
      ensures MountDecisionFor(Lookup(storage.items, ConsentKey), readFails) == LeaveAsIs ==>
                (showConsentBanner == old(showConsentBanner) && adMob.Flags() == old(adMob.Flags())
                 && adMob.service.plugin.calls == old(adMob.service.plugin.calls))
    {
      if readFails {
        showConsentBanner := true;
        return;
      }
      var stored := storage.GetItem(ConsentKey);
      if !Truthy(stored) {
        showConsentBanner := true;
      } else if stored.value == "granted" {
        adMob.ShowBanner(BottomCenter);
      }
    }

    /** The `consent:show-form` listener. */
    method ShowFormRequested()
      modifies this
      ensures showConsentBanner && isClient == old(isClient)
    {
      showConsentBanner := true;
    }

    /** The `consent:show-privacy-options` listener. */
    method PrivacyOptionsRequested()
      modifies this
      ensures showConsentBanner && isClient == old(isClient)
    {
      showConsentBanner := true;
    }

    /** `handleAccept()`: `'granted'` is written (directly, then again by `setConsent` together
        with the time), the banner ad is requested, and the prompt closes; the banner request
        cannot reject, so the `catch` path is never taken. */
    method HandleAccept(now: int)
      requires Valid()
      modifies this, storage, consent, adMob, adMob.service, adMob.service.plugin
      ensures Valid()
      ensures storage.items == StoreDecision(old(storage.items), true, now)
      ensures consent.consentInfo == ObtainedInfo(true) && consent.isInitialized == old(consent.isInitialized)
      ensures forall later :: now <= later < now + ThirtyDays ==>
                CheckConsentStatus(storage.items, later) == ObtainedInfo(true)
      ensures !showConsentBanner && isClient == old(isClient)
      ensures adMob.Flags() == AfterShowBanner(old(adMob.Flags())) && adMob.timers == old(adMob.timers)
      ensures adMob.service.isInitialized == old(adMob.service.isInitialized)
      ensures adMob.service.plugin.calls == old(adMob.service.plugin.calls)
           + (if old(adMob.isInitialized)
              then [BannerCall(adMob.service.config, adMob.service.platformName, BottomCenter)]
              else [])
    {
      storage.SetItem(ConsentKey, "granted");
      consent.SetConsent(true, now);
      assert storage.items == StoreDecision(old(storage.items), true, now);
      forall later | now <= later < now + ThirtyDays
        ensures CheckConsentStatus(storage.items, later) == ObtainedInfo(true)
      {
        StoredDecisionRoundTrip(old(storage.items), true, now, later);
      }
      adMob.ShowBanner(BottomCenter);
      showConsentBanner := false;
    }

    /** `handleReject()`: `'denied'` is written and recorded, the prompt closes, and no ad call
        is made. */
    method HandleReject(now: int)
      requires Valid()
      modifies this, storage, consent
      ensures Valid()
      ensures storage.items == StoreDecision(old(storage.items), false, now)
      ensures consent.consentInfo == ObtainedInfo(false) && consent.isInitialized == old(consent.isInitialized)
      ensures !showConsentBanner && isClient == old(isClient)
    {
      storage.SetItem(ConsentKey, "denied");
      consent.SetConsent(false, now);
      assert storage.items == StoreDecision(old(storage.items), false, now);
      showConsentBanner := false;
    }
  }
}
