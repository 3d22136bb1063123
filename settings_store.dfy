/** The dashboard's settings store (src/stores/settingsStore.ts): preferences, profile and connected
    devices, each replaced by its own action, and kept by the `persist` middleware under the
    `settings-storage` key. The browser's time zone, the clock and what the browser's storage already
    holds are inputs of the initial state. */
module SettingsStore {
  import opened Wrappers
  import opened Lists

  datatype Theme = Light | Dark | System
  datatype Language = En | Es | Fr | De | Ja
  datatype Channel = Email | Sms | Push | InApp
  datatype FontSize = Small | Medium | Large
  datatype Contrast = Normal | High
  datatype Layout = Compact | Comfortable | Spacious
  datatype DeviceType = Mobile | Desktop | Tablet

  datatype Notifications = Notifications(channels: seq<Channel>, alerts: bool, updates: bool, marketing: bool)

  datatype Preferences = Preferences(
    theme: Theme,
    language: Language,
    notifications: Notifications,
    timezone: string,
    fontSize: FontSize,
    contrast: Contrast,
    layout: Layout,
    reducedMotion: bool,
    screenReader: bool)

  /** `Partial<UserPreferences>`: None is a key the update does not mention. */
  datatype PreferencesUpdate = PreferencesUpdate(
    theme: Option<Theme>,
    language: Option<Language>,
    notifications: Option<Notifications>,
    timezone: Option<string>,
    fontSize: Option<FontSize>,
    contrast: Option<Contrast>,
    layout: Option<Layout>,
    reducedMotion: Option<bool>,
    screenReader: Option<bool>)

  datatype Profile = Profile(id: string, email: string, name: string, avatar: Option<string>, phone: Option<string>,
                             twoFactorEnabled: bool)

  datatype ProfileUpdate = ProfileUpdate(id: Option<string>, email: Option<string>, name: Option<string>,
                                         avatar: Option<string>, phone: Option<string>, twoFactorEnabled: Option<bool>)

  datatype Device = Device(id: string, name: string, kind: DeviceType, lastActive: int)

  datatype Login = Login(id: string, timestamp: int, success: bool, ip: string, device: string, browser: string)

  /** `{ ...preferences, ...update }`, one level deep only: a key the update gives takes its value, a
      key it leaves out keeps the stored one. */
  function MergePreferences(p: Preferences, u: PreferencesUpdate): (r: Preferences)
    ensures r.theme == (if u.theme.Some? then u.theme.value else p.theme)
    ensures r.language == (if u.language.Some? then u.language.value else p.language)
    ensures r.notifications == (if u.notifications.Some? then u.notifications.value else p.notifications)
    ensures r.timezone == (if u.timezone.Some? then u.timezone.value else p.timezone)
    ensures r.fontSize == (if u.fontSize.Some? then u.fontSize.value else p.fontSize)
    ensures r.contrast == (if u.contrast.Some? then u.contrast.value else p.contrast)
    ensures r.layout == (if u.layout.Some? then u.layout.value else p.layout)
    ensures r.reducedMotion == (if u.reducedMotion.Some? then u.reducedMotion.value else p.reducedMotion)
    ensures r.screenReader == (if u.screenReader.Some? then u.screenReader.value else p.screenReader)
  {
    Preferences(u.theme.GetOr(p.theme), u.language.GetOr(p.language), u.notifications.GetOr(p.notifications),
                u.timezone.GetOr(p.timezone), u.fontSize.GetOr(p.fontSize), u.contrast.GetOr(p.contrast),
                u.layout.GetOr(p.layout), u.reducedMotion.GetOr(p.reducedMotion), u.screenReader.GetOr(p.screenReader))
  }

  /** `{ ...profile, ...update }`: a key the update gives takes its value, a key it leaves out keeps the
      stored one. */
  function MergeProfile(p: Profile, u: ProfileUpdate): (r: Profile)
    ensures r.id == (if u.id.Some? then u.id.value else p.id)
    ensures r.email == (if u.email.Some? then u.email.value else p.email)
    ensures r.name == (if u.name.Some? then u.name.value else p.name)
    ensures r.avatar == (if u.avatar.Some? then u.avatar else p.avatar)
    ensures r.phone == (if u.phone.Some? then u.phone else p.phone)
    ensures r.twoFactorEnabled == (if u.twoFactorEnabled.Some? then u.twoFactorEnabled.value else p.twoFactorEnabled)
  {
    Profile(u.id.GetOr(p.id), u.email.GetOr(p.email), u.name.GetOr(p.name),
            if u.avatar.Some? then u.avatar else p.avatar, if u.phone.Some? then u.phone else p.phone,
            u.twoFactorEnabled.GetOr(p.twoFactorEnabled))
  }

  const NoPreferenceChange := PreferencesUpdate(None, None, None, None, None, None, None, None, None)

  /** A provided key overwrites, an absent one is kept; a provided `notifications` object replaces the
      nested settings wholesale, so turning marketing on alone is not possible with a partial object. */
  lemma MergePreferencesLaws(p: Preferences, u: PreferencesUpdate, n: Notifications)
    ensures MergePreferences(p, NoPreferenceChange) == p
    ensures u.theme.Some? ==> MergePreferences(p, u).theme == u.theme.value
    ensures u.theme.None? ==> MergePreferences(p, u).theme == p.theme
    ensures MergePreferences(p, u.(notifications := Some(n))).notifications == n
    ensures MergePreferences(MergePreferences(p, u), u) == MergePreferences(p, u)
  {
  }

  /** The same for the profile. */
  lemma MergeProfileLaws(p: Profile, u: ProfileUpdate)
    ensures MergeProfile(p, ProfileUpdate(None, None, None, None, None, None)) == p
    ensures u.name.Some? ==> MergeProfile(p, u).name == u.name.value
    ensures u.name.None? ==> MergeProfile(p, u).name == p.name
    ensures MergeProfile(MergeProfile(p, u), u) == MergeProfile(p, u)
  {
  }

  /** `devices.filter(device => device.id !== deviceId)`. */
  function WithoutDevice(devices: seq<Device>, deviceId: string): (r: seq<Device>)
    ensures forall d :: d in r <==> d in devices && d.id != deviceId
    ensures IsSubsequence(r, devices)
  {
    Filter((d: Device) => d.id != deviceId, devices)
  }

  /** Removing an unknown id changes nothing, and removing twice is removing once. */
  lemma WithoutDeviceLaws(devices: seq<Device>, deviceId: string)
    ensures (forall d :: d in devices ==> d.id != deviceId) ==> WithoutDevice(devices, deviceId) == devices
    ensures WithoutDevice(WithoutDevice(devices, deviceId), deviceId) == WithoutDevice(devices, deviceId)
  {
    if forall d :: d in devices ==> d.id != deviceId {
      FilterAll((d: Device) => d.id != deviceId, devices);
    }
    FilterIdempotent((d: Device) => d.id != deviceId, devices);
  }

  /** The state `persist` keeps under `settings-storage`, as read back; a key missing from the stored
      object is None. */
  datatype Saved = Saved(preferences: Option<Preferences>, profile: Option<Profile>, devices: Option<seq<Device>>,
                         loginHistory: Option<seq<Login>>)

  /** The state written after every change: all four keys. */
  function Written(preferences: Preferences, profile: Profile, devices: seq<Device>, loginHistory: seq<Login>): Saved
  {
    Saved(Some(preferences), Some(profile), Some(devices), Some(loginHistory))
  }

  /** `persist`'s default merge on start-up, `{ ...initial, ...stored }`: a stored key wins over the
      initial value, and nothing stored leaves the initial state. */
  function Rehydrate<T>(stored: Option<Saved>, key: Saved -> Option<T>, initial: T): (r: T)
    ensures stored.None? ==> r == initial
    ensures stored.Some? && key(stored.value).Some? ==> r == key(stored.value).value
    ensures stored.Some? && key(stored.value).None? ==> r == initial
  {
    if stored.Some? && key(stored.value).Some? then key(stored.value).value else initial
  }

  /** Reopening the dashboard on what the store last wrote restores exactly that state, whatever the
      defaults then are. */
  lemma ReloadRestores(p: Preferences, pr: Profile, d: seq<Device>, l: seq<Login>,
                       p0: Preferences, pr0: Profile, d0: seq<Device>, l0: seq<Login>)
    ensures var w := Some(Written(p, pr, d, l));
      Rehydrate(w, (s: Saved) => s.preferences, p0) == p && Rehydrate(w, (s: Saved) => s.profile, pr0) == pr
      && Rehydrate(w, (s: Saved) => s.devices, d0) == d && Rehydrate(w, (s: Saved) => s.loginHistory, l0) == l
  {
  }

  function DefaultPreferences(timezone: string): Preferences
  {
    Preferences(System, En, Notifications([Email, InApp], true, true, false), timezone, Medium, Normal, Comfortable,
                false, false)
  }

  const DefaultProfile := Profile("1", "user@example.com", "John Doe", None, None, false)

  class SettingsStore {
    var preferences: Preferences
    var profile: Profile
    var devices: seq<Device>
    var loginHistory: seq<Login>
    /** The browser storage under `settings-storage`. */
    var storage: Option<Saved>

    /** The defaults (system theme, English, e-mail and in-app notifications without marketing, the
        browser's time zone, a sample profile, device and login), each overridden by the key the
        browser's storage already holds. */
    constructor(timezone: string, now: int, stored: Option<Saved>)
      ensures stored.None? ==>
        && preferences.theme == System && preferences.language == En
        && preferences.notifications == Notifications([Email, InApp], true, true, false)
        && preferences.timezone == timezone && preferences.fontSize == Medium && preferences.contrast == Normal
        && preferences.layout == Comfortable && !preferences.reducedMotion && !preferences.screenReader
        && profile == Profile("1", "user@example.com", "John Doe", None, None, false)
        && devices == [Device("1", "Chrome on Windows", Desktop, now)]
        && loginHistory == [Login("1", now, true, "192.168.1.1", "Desktop", "Chrome")]
      ensures preferences == Rehydrate(stored, (s: Saved) => s.preferences, DefaultPreferences(timezone))
      ensures profile == Rehydrate(stored, (s: Saved) => s.profile, DefaultProfile)
      ensures devices == Rehydrate(stored, (s: Saved) => s.devices, [Device("1", "Chrome on Windows", Desktop, now)])
      ensures loginHistory
           == Rehydrate(stored, (s: Saved) => s.loginHistory, [Login("1", now, true, "192.168.1.1", "Desktop", "Chrome")])
      ensures storage == stored
    {
      preferences := Rehydrate(stored, (s: Saved) => s.preferences, DefaultPreferences(timezone));
      profile := Rehydrate(stored, (s: Saved) => s.profile, DefaultProfile);
      devices := Rehydrate(stored, (s: Saved) => s.devices, [Device("1", "Chrome on Windows", Desktop, now)]);
      loginHistory := Rehydrate(stored, (s: Saved) => s.loginHistory,
                                [Login("1", now, true, "192.168.1.1", "Desktop", "Chrome")]);
      storage := stored;
    }

    /** `updatePreferences`: only the preferences change, and the new state is written to storage. */
    method UpdatePreferences(u: PreferencesUpdate)
      modifies this`preferences, this`storage
      ensures preferences == MergePreferences(old(preferences), u)
      ensures storage == Some(Written(preferences, profile, devices, loginHistory))
    {
      preferences := MergePreferences(preferences, u);
      storage := Some(Written(preferences, profile, devices, loginHistory));
    }

    /** `updateProfile`: only the profile changes, and the new state is written to storage. */
    method UpdateProfile(u: ProfileUpdate)
      modifies this`profile, this`storage
      ensures profile == MergeProfile(old(profile), u)
      ensures storage == Some(Written(preferences, profile, devices, loginHistory))
    {
      profile := MergeProfile(profile, u);
      storage := Some(Written(preferences, profile, devices, loginHistory));
    }

    /** `removeDevice`: only the device list changes, and the new state is written to storage. */
    method RemoveDevice(deviceId: string)
      modifies this`devices, this`storage
      ensures devices == WithoutDevice(old(devices), deviceId)
      ensures storage == Some(Written(preferences, profile, devices, loginHistory))
    {
      devices := WithoutDevice(devices, deviceId);
      storage := Some(Written(preferences, profile, devices, loginHistory));
    }
  }
}
