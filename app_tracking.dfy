/** src/services/app-tracking.service.ts: Apple's App Tracking Transparency status. Off native
    iOS tracking counts as authorised and the plugin is never asked. On iOS the plugin's answer
    (`None` when its promise rejects) decides, and a requested status is also kept in
    `localStorage` under `att-status` as the fallback for a failing status query. The cast
    `as TrackingAuthorizationStatus` checks nothing, so a status is any string; the four names
    of the enum are recognised. */
module AppTracking {
  import opened Common

  datatype TrackingStatus = NotDetermined | Restricted | Denied | Authorized | Unrecognized(raw: string)

  const StatusKey: string := "att-status"

  /** The string a status is at run time (`status.toString()`). */
  function StatusName(s: TrackingStatus): string {
    match s
    case NotDetermined => "notDetermined"
    case Restricted => "restricted"
    case Denied => "denied"
    case Authorized => "authorized"
    case Unrecognized(raw) => raw
  }

  /** A string seen as a status. */
  function ParseStatus(raw: string): (s: TrackingStatus)
    ensures StatusName(s) == raw
  {
    if raw == "notDetermined" then NotDetermined
    else if raw == "restricted" then Restricted
    else if raw == "denied" then Denied
    else if raw == "authorized" then Authorized
    else Unrecognized(raw)
  }

  /** An unrecognised status never carries one of the four names. */
  predicate WellFormed(s: TrackingStatus) {
    s.Unrecognized? ==> s.raw !in {"notDetermined", "restricted", "denied", "authorized"}
  }

  /** Naming and parsing are inverse on well-formed statuses. */
  lemma ParseStatusName(s: TrackingStatus)
    requires WellFormed(s)
    ensures ParseStatus(StatusName(s)) == s
    ensures WellFormed(ParseStatus(StatusName(s)))
  {
  }

  /** `!Capacitor.isNativePlatform() || Capacitor.getPlatform() !== 'ios'`, negated. */
  predicate OnNativeIos(isNative: bool, platformName: string) {
    isNative && platformName == "ios"
  }

  /** What `getTrackingStatus()` reports, given the plugin's answer and the storage. */
  function TrackingStatusOf(nativeIos: bool, answer: Option<string>, items: map<string, string>): TrackingStatus {
    if !nativeIos then Authorized
    else match answer
      case Some(raw) => ParseStatus(raw)
      case None => if Truthy(Lookup(items, StatusKey)) then ParseStatus(items[StatusKey]) else NotDetermined
  }

  /** Off native iOS the status is authorised whatever the plugin and the storage say; on iOS
      a failing query with nothing stored is `notDetermined`. */
  lemma StatusOffIos(answer: Option<string>, items: map<string, string>)
    ensures TrackingStatusOf(false, answer, items) == Authorized
    ensures StatusKey !in items ==> TrackingStatusOf(true, None, items) == NotDetermined
  {
  }

  /** Round trip through storage: a status recorded by `requestTrackingPermission` is what a
      later failing status query falls back to. */
  lemma StoredStatusFallback(items: map<string, string>, s: TrackingStatus)
    requires WellFormed(s) && (s.Unrecognized? ==> s.raw != "")
    ensures TrackingStatusOf(true, None, items[StatusKey := StatusName(s)]) == s
  {
    ParseStatusName(s);
  }

  class AppTrackingService {
    var isInitialized: bool
    const storage: LocalStorage
    const isNative: bool
    const platformName: string

    constructor (storage: LocalStorage, isNative: bool, platformName: string)
      ensures !isInitialized && this.storage == storage
      ensures this.isNative == isNative && this.platformName == platformName
    {
      isInitialized := false;
      this.storage := storage;
      this.isNative := isNative;
      this.platformName := platformName;
    }

    /** `requestTrackingPermission()`: authorised off iOS; on iOS the user's answer, which is
        stored; a failing prompt counts as denied and stores nothing. */
    method RequestTrackingPermission(answer: Option<string>) returns (status: TrackingStatus)
      modifies storage
      ensures !OnNativeIos(isNative, platformName) ==>
                (status == Authorized && storage.items == old(storage.items))
      ensures OnNativeIos(isNative, platformName) && answer.None? ==>
                (status == Denied && storage.items == old(storage.items))
      ensures OnNativeIos(isNative, platformName) && answer.Some? ==>
                (status == ParseStatus(answer.value)
                 && storage.items == old(storage.items)[StatusKey := answer.value])
    {
      if !isNative || platformName != "ios" {
        return Authorized;
      }
      match answer {
        case None =>
          status := Denied;
        case Some(raw) =>
          status := ParseStatus(raw);
          storage.SetItem(StatusKey, StatusName(status));
      }
    }

    /** `getTrackingStatus()` */
    method GetTrackingStatus(answer: Option<string>) returns (status: TrackingStatus)
      ensures status == TrackingStatusOf(OnNativeIos(isNative, platformName), answer, storage.items)
      ensures !OnNativeIos(isNative, platformName) ==> status == Authorized
      ensures OnNativeIos(isNative, platformName) && answer.Some? ==> StatusName(status) == answer.value
    {
      if !isNative || platformName != "ios" {
        return Authorized;
      }
      match answer {
        case Some(raw) =>
          status := ParseStatus(raw);
        case None =>
          var stored := storage.GetItem(StatusKey);
          if Truthy(stored) {
            status := ParseStatus(stored.value);
          } else {
            status := NotDetermined;
          }
      }
    }

    /** `canShowAds()`: only an authorised status allows personalised ads; off iOS that is
        always the case. */
    method CanShowAds(answer: Option<string>) returns (allowed: bool)
      ensures allowed <==> TrackingStatusOf(OnNativeIos(isNative, platformName), answer, storage.items) == Authorized
      ensures !OnNativeIos(isNative, platformName) ==> allowed
    {
      var status := GetTrackingStatus(answer);
      allowed := status == Authorized;
    }

    /** `needsTrackingPrompt()`: never off iOS; on iOS exactly when nothing is determined. */
    method NeedsTrackingPrompt(answer: Option<string>) returns (needed: bool)
      ensures !OnNativeIos(isNative, platformName) ==> !needed
      ensures OnNativeIos(isNative, platformName) ==>
                (needed <==> TrackingStatusOf(true, answer, storage.items) == NotDetermined)
    {
      if !isNative || platformName != "ios" {
        return false;
      }
      var status := GetTrackingStatus(answer);
      needed := status == NotDetermined;
    }

    /** `initialize()`: queries the status once; the query cannot fail past its own fallback,
        so the flag is always set. */
    method Initialize(answer: Option<string>)
      modifies this
      ensures isInitialized
    {
      if isInitialized {
        return;
      }
      var _ := GetTrackingStatus(answer);
      isInitialized := true;
    }
  }
}
