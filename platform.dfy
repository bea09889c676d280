/** src/hooks/usePlatform.ts: what the app knows about where it runs. Before the effect runs
    (and during server rendering) the answer is "web, not mobile"; the effect then reads
    Capacitor's answers and the window width, which are parameters here. */
module Platform {
  import opened Common

  datatype PlatformInfo = PlatformInfo(
    isMobile: bool, isNative: bool, isWeb: bool, platform: string, isIOS: bool, isAndroid: bool)

  /** The state the hook starts with. */
  const InitialPlatformInfo: PlatformInfo := PlatformInfo(false, false, true, "web", false, false)

  /** The largest window width still treated as mobile. */
  const MobileMaxWidth: int := 768

  /** The effect: `isNative` and `platform` come from Capacitor, `innerWidth` from the window
      (`None` when there is no window). A native app is always mobile; a web page is mobile
      when its window is at most 768 pixels wide. */
  function DetectPlatform(isNative: bool, platform: string, innerWidth: Option<int>): (info: PlatformInfo)
    ensures info.isNative == isNative && info.isWeb == !isNative && info.platform == platform
    ensures info.isMobile <==> isNative || (innerWidth.Some? && innerWidth.value <= MobileMaxWidth)
    ensures info.isIOS <==> platform == "ios"
    ensures info.isAndroid <==> platform == "android"
  {
    var isMobile := isNative || (innerWidth.Some? && innerWidth.value <= MobileMaxWidth);
    PlatformInfo(isMobile, isNative, !isNative, platform, platform == "ios", platform == "android")
  }

  /** Properties of every detected answer: native and web are exclusive, native implies
      mobile, and at most one of iOS and Android holds. The initial answer has them too. */
  predicate Coherent(info: PlatformInfo) {
    info.isWeb == !info.isNative && (info.isNative ==> info.isMobile) && !(info.isIOS && info.isAndroid)
  }

  lemma DetectedIsCoherent(isNative: bool, platform: string, innerWidth: Option<int>)
    ensures Coherent(DetectPlatform(isNative, platform, innerWidth))
    ensures Coherent(InitialPlatformInfo)
  {
  }

  /** A desktop browser (not native, wider than 768 pixels, or without a window) is not
      mobile. */
  lemma DesktopIsNotMobile(platform: string, innerWidth: Option<int>)
    requires innerWidth.None? || innerWidth.value > MobileMaxWidth
    ensures !DetectPlatform(false, platform, innerWidth).isMobile
  {
  }
}
