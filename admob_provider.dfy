/** src/providers/AdMobProvider.tsx: the context the pages use for ads. It gates every banner
    and full-screen ad behind `showAds`, which is false until the platform effect has run and
    then follows `isMobile` (the configuration has no `disableAds` entry, so `!disableAds` is
    always true). Everything else of the hook (its flags and its prepare calls) passes through
    unchanged. */
module AdMobProvider {
  import opened AdMob
  import opened UseAdMob
  import opened Platform

  class AdMobContextProvider {
    var showAds: bool
    const adMob: AdMobHook

    ghost predicate Valid()
      reads this, adMob, adMob.service, adMob.service.plugin
    {
      adMob.Valid()
    }

    constructor (adMob: AdMobHook)
      requires adMob.Valid()
      ensures Valid()
      ensures !showAds && this.adMob == adMob
    {
      showAds := false;
      this.adMob := adMob;
    }

    /** The effect on `isMobile`: ads are shown exactly on mobile. */
    method PlatformChanged(info: PlatformInfo)
      modifies this
      ensures showAds == info.isMobile
    {
      showAds := info.isMobile;
    }

    /** `showBanner()`: the hook's `showBanner` at the bottom centre, only when ads are shown. */
    method ShowBanner()
      requires Valid()
      modifies adMob, adMob.service, adMob.service.plugin
      ensures Valid()
      ensures showAds ==> adMob.Flags() == AfterShowBanner(old(adMob.Flags()))
      ensures showAds ==>
                (adMob.service.plugin.calls == old(adMob.service.plugin.calls)
                   + (if old(adMob.isInitialized)
                      then [BannerCall(adMob.service.config, adMob.service.platformName, BottomCenter)]
                      else []))
      ensures !showAds ==> adMob.Flags() == old(adMob.Flags())
      ensures !showAds ==> adMob.service.plugin.calls == old(adMob.service.plugin.calls)
      ensures adMob.timers == old(adMob.timers)
    {
      if showAds {
        adMob.ShowBanner(BottomCenter);
      }
    }

    /** `hideBanner()` */
    method HideBanner()
      requires Valid()
      modifies adMob, adMob.service.plugin
      ensures Valid()
      ensures showAds ==> adMob.Flags() == old(adMob.Flags()).(isBannerVisible := false)
      ensures showAds ==> adMob.service.plugin.calls == old(adMob.service.plugin.calls) + [NativeHideBanner]
      ensures !showAds ==> adMob.Flags() == old(adMob.Flags())
      ensures !showAds ==> adMob.service.plugin.calls == old(adMob.service.plugin.calls)
      ensures adMob.timers == old(adMob.timers)
    {
      if showAds {
        adMob.HideBanner();
      }
    }

    /** `removeBanner()` */
    method RemoveBanner()
      requires Valid()
      modifies adMob, adMob.service.plugin
      ensures Valid()
      ensures showAds ==> adMob.Flags() == old(adMob.Flags()).(isBannerVisible := false)
      ensures showAds ==> adMob.service.plugin.calls == old(adMob.service.plugin.calls) + [NativeRemoveBanner]
      ensures !showAds ==> adMob.Flags() == old(adMob.Flags())
      ensures !showAds ==> adMob.service.plugin.calls == old(adMob.service.plugin.calls)
      ensures adMob.timers == old(adMob.timers)
    {
      if showAds {
        adMob.RemoveBanner();
      }
    }

    /** `showInterstitial()`: only when ads are shown and the interstitial is ready. */
    method ShowInterstitial()
      requires Valid()
      modifies adMob, adMob.service.plugin
      ensures Valid()
      ensures showAds && old(adMob.isInterstitialReady) ==>
                (adMob.Flags() == old(adMob.Flags()).(isInterstitialReady := false)
                 && adMob.timers == old(adMob.timers) + [PrepareInterstitialLater]
                 && adMob.service.plugin.calls == old(adMob.service.plugin.calls) + [NativeShowInterstitial])
      ensures !(showAds && old(adMob.isInterstitialReady)) ==>
                (adMob.Flags() == old(adMob.Flags()) && adMob.timers == old(adMob.timers)
                 && adMob.service.plugin.calls == old(adMob.service.plugin.calls))
    {
      if showAds && adMob.isInterstitialReady {
        adMob.ShowInterstitial();
      }
    }

    /** `showReward()` */
    method ShowReward()
      requires Valid()
      modifies adMob, adMob.service.plugin
      ensures Valid()
      ensures showAds && old(adMob.isRewardReady) ==>
                (adMob.Flags() == old(adMob.Flags()).(isRewardReady := false)
                 && adMob.timers == old(adMob.timers) + [PrepareRewardLater]
                 && adMob.service.plugin.calls == old(adMob.service.plugin.calls) + [NativeShowRewardVideoAd])
      ensures !(showAds && old(adMob.isRewardReady)) ==>
                (adMob.Flags() == old(adMob.Flags()) && adMob.timers == old(adMob.timers)
                 && adMob.service.plugin.calls == old(adMob.service.plugin.calls))
    {
      if showAds && adMob.isRewardReady {
        adMob.ShowReward();
      }
    }
  }

  /** On a desktop browser the provider never reaches the plugin: after the platform effect,
      every ad operation leaves the call log as it was. */
  method DesktopMakesNoPluginCalls(provider: AdMobContextProvider, platform: string, innerWidth: Common.Option<int>)
    returns (callsBefore: seq<PluginCall>, callsAfter: seq<PluginCall>)
    requires provider.Valid()
    requires innerWidth.None? || innerWidth.value > MobileMaxWidth
    modifies provider, provider.adMob, provider.adMob.service, provider.adMob.service.plugin
    ensures callsAfter == callsBefore
  {
    callsBefore := provider.adMob.service.plugin.calls;
    provider.PlatformChanged(DetectPlatform(false, platform, innerWidth));
    provider.ShowBanner();
    provider.ShowInterstitial();
    provider.ShowReward();
    provider.HideBanner();
    provider.RemoveBanner();
    callsAfter := provider.adMob.service.plugin.calls;
  }
}
