/**
 * The settings screens the search registry names, and the fully qualified
 * class names by which it keys them.
 *
 * The registry never loads these classes: it only needs the string that
 * `X.class.getName()` yields for each imported screen class. For a top-level
 * Java class that string is the package name, a '.', and the simple name.
 * Package segments are lower-case Java identifiers and class names start
 * with a capital letter, neither contains a '.', and that is what makes the
 * 46 names pairwise distinct (ClassNameInjective below).
 */
module Screens {

  /** The packages the screen classes are imported from. */
  datatype Package =
    | Settings        // com.android.settings itself
    | Wifi
    | Bluetooth
    | Sim
    | Net
    | Razer
    | Notification
    | DeviceInfo
    | FuelGauge
    | Users
    | Location
    | InputMethod
    | Voice
    | Accessibility
    | Print
    | CyanogenMod

  const ROOT_PACKAGE: string := "com.android.settings"

  /** The last segment of a subpackage of com.android.settings ("" for that package itself). */
  function Subpackage(p: Package): string {
    match p
    case Settings => ""
    case Wifi => "wifi"
    case Bluetooth => "bluetooth"
    case Sim => "sim"
    case Net => "net"
    case Razer => "razer"
    case Notification => "notification"
    case DeviceInfo => "deviceinfo"
    case FuelGauge => "fuelgauge"
    case Users => "users"
    case Location => "location"
    case InputMethod => "inputmethod"
    case Voice => "voice"
    case Accessibility => "accessibility"
    case Print => "print"
    case CyanogenMod => "cyanogenmod"
  }

  function PackageName(p: Package): string {
    if p == Settings then ROOT_PACKAGE else ROOT_PACKAGE + "." + Subpackage(p)
  }

  /** The screens in com.android.settings itself. */
  datatype RootScreen =
    | DataUsageSummary
    | WirelessSettings
    | HomeSettings
    | DisplaySettings
    | SoundSettings
    | SecuritySettings
    | ScreenPinningSettings
    | PrivacySettings
    | DateTimeSettings
    | DevelopmentSettings
    | DeviceInfoSettings
    | ButtonSettings

  /** The screens in com.android.settings.wifi. */
  datatype WifiScreen = WifiSettings | AdvancedWifiSettings | SavedAccessPointsWifiSettings

  /** The screens in com.android.settings.notification. */
  datatype NotificationScreen = NotificationManagerSettings | OtherSoundSettings | ZenModeSettings

  /** The screens in com.android.settings.deviceinfo. */
  datatype DeviceInfoScreen = Memory | UsbSettings

  /** The screens in com.android.settings.cyanogenmod; its PrivacySettings is not RootScreen's. */
  datatype CyanogenModScreen = StatusBarSettings | NotificationDrawerSettings | PrivacySettings

  /** The screens in com.android.settings.razer. */
  datatype RazerScreen =
    | LockScreenSettings
    | AmbientSettings
    | RecentsSettings
    | NavbarSettings
    | StatusBarClockStyle
    | StatusBarBatteryStatusSettings
    | RazerDisplaySettings
    | BatteryStyle
    | RazerSoundSettings
    | NavigationSettings
    | InterfaceSettings
    | AnimationSettings
    | SmartControl

  /**
   * The screen classes the registry names. A package with several of them
   * has its own datatype; a package the registry takes only one class from
   * is a single constructor.
   */
  datatype ScreenClass =
    | InSettings(root: RootScreen)
    | InWifi(wifi: WifiScreen)
    | BluetoothSettings
    | SimSettings
    | DataUsageMeteredSettings
    | InNotification(notification: NotificationScreen)
    | InDeviceInfo(deviceInfo: DeviceInfoScreen)
    | PowerUsageSummary
    | UserSettings
    | LocationSettings
    | InputMethodAndLanguageSettings
    | VoiceInputSettings
    | AccessibilitySettings
    | PrintSettingsFragment
    | InCyanogenMod(cyanogenMod: CyanogenModScreen)
    | InRazer(razer: RazerScreen)

  /** The package each screen class is declared in. */
  function PackageOf(c: ScreenClass): Package {
    match c
    case InSettings(_) => Settings
    case InWifi(_) => Wifi
    case BluetoothSettings => Bluetooth
    case SimSettings => Sim
    case DataUsageMeteredSettings => Net
    case InNotification(_) => Notification
    case InDeviceInfo(_) => DeviceInfo
    case PowerUsageSummary => FuelGauge
    case UserSettings => Users
    case LocationSettings => Location
    case InputMethodAndLanguageSettings => InputMethod
    case VoiceInputSettings => Voice
    case AccessibilitySettings => Accessibility
    case PrintSettingsFragment => Print
    case InCyanogenMod(_) => CyanogenMod
    case InRazer(_) => Razer
  }

  function RootName(r: RootScreen): string {
    match r
    case DataUsageSummary => "DataUsageSummary"
    case WirelessSettings => "WirelessSettings"
    case HomeSettings => "HomeSettings"
    case DisplaySettings => "DisplaySettings"
    case SoundSettings => "SoundSettings"
    case SecuritySettings => "SecuritySettings"
    case ScreenPinningSettings => "ScreenPinningSettings"
    case PrivacySettings => "PrivacySettings"
    case DateTimeSettings => "DateTimeSettings"
    case DevelopmentSettings => "DevelopmentSettings"
    case DeviceInfoSettings => "DeviceInfoSettings"
    case ButtonSettings => "ButtonSettings"
  }

  function WifiName(w: WifiScreen): string {
    match w
    case WifiSettings => "WifiSettings"
    case AdvancedWifiSettings => "AdvancedWifiSettings"
    case SavedAccessPointsWifiSettings => "SavedAccessPointsWifiSettings"
  }

  function NotificationName(n: NotificationScreen): string {
    match n
    case NotificationManagerSettings => "NotificationManagerSettings"
    case OtherSoundSettings => "OtherSoundSettings"
    case ZenModeSettings => "ZenModeSettings"
  }

  function DeviceInfoName(d: DeviceInfoScreen): string {
    match d
    case Memory => "Memory"
    case UsbSettings => "UsbSettings"
  }

  function CyanogenModName(m: CyanogenModScreen): string {
    match m
    case StatusBarSettings => "StatusBarSettings"
    case NotificationDrawerSettings => "NotificationDrawerSettings"
    case PrivacySettings => "PrivacySettings"
  }

  function RazerName(z: RazerScreen): string {
    match z
    case LockScreenSettings => "LockScreenSettings"
    case AmbientSettings => "AmbientSettings"
    case RecentsSettings => "RecentsSettings"
    case NavbarSettings => "NavbarSettings"
    case StatusBarClockStyle => "StatusBarClockStyle"
    case StatusBarBatteryStatusSettings => "StatusBarBatteryStatusSettings"
    case RazerDisplaySettings => "RazerDisplaySettings"
    case BatteryStyle => "BatteryStyle"
    case RazerSoundSettings => "RazerSoundSettings"
    case NavigationSettings => "NavigationSettings"
    case InterfaceSettings => "InterfaceSettings"
    case AnimationSettings => "AnimationSettings"
    case SmartControl => "SmartControl"
  }

  /** The simple (unqualified) name of each screen class. */
  function SimpleName(c: ScreenClass): string {
    match c
    case InSettings(r) => RootName(r)
    case InWifi(w) => WifiName(w)
    case BluetoothSettings => "BluetoothSettings"
    case SimSettings => "SimSettings"
    case DataUsageMeteredSettings => "DataUsageMeteredSettings"
    case InNotification(n) => NotificationName(n)
    case InDeviceInfo(d) => DeviceInfoName(d)
    case PowerUsageSummary => "PowerUsageSummary"
    case UserSettings => "UserSettings"
    case LocationSettings => "LocationSettings"
    case InputMethodAndLanguageSettings => "InputMethodAndLanguageSettings"
    case VoiceInputSettings => "VoiceInputSettings"
    case AccessibilitySettings => "AccessibilitySettings"
    case PrintSettingsFragment => "PrintSettingsFragment"
    case InCyanogenMod(m) => CyanogenModName(m)
    case InRazer(z) => RazerName(z)
  }

  /** `c.class.getName()`: the fully qualified name the registry uses as key. */
  function ClassName(c: ScreenClass): (name: string)
    ensures ROOT_PACKAGE + "." <= name
  {
    var p, simple := PackageOf(c), SimpleName(c);
    assert p != Settings ==>
      ROOT_PACKAGE + "." + Subpackage(p) + "." + simple == ROOT_PACKAGE + "." + (Subpackage(p) + "." + simple);
    PackageName(p) + "." + simple
  }

  predicate IsUpper(ch: char) { 'A' <= ch <= 'Z' }

  predicate IsLower(ch: char) { 'a' <= ch <= 'z' }

  /** Every subpackage segment is a non-empty lower-case identifier without '.'. */
  lemma SubpackageIsSegment(p: Package)
    requires p != Settings
    ensures Subpackage(p) != [] && IsLower(Subpackage(p)[0]) && '.' !in Subpackage(p)
  {
  }

  /** Different subpackages have different segments. */
  lemma SubpackageInjective(p: Package, q: Package)
    requires Subpackage(p) == Subpackage(q)
    ensures p == q
  {
  }

  /** The simple names of the classes in com.android.settings itself start with a capital. */
  lemma RootNameCapitalized(r: RootScreen)
    ensures RootName(r) != [] && IsUpper(RootName(r)[0])
  {
  }

  lemma RootNameInjective(a: RootScreen, b: RootScreen)
    requires RootName(a) == RootName(b)
    ensures a == b
  {
  }

  lemma WifiNameInjective(a: WifiScreen, b: WifiScreen)
    requires WifiName(a) == WifiName(b)
    ensures a == b
  {
  }

  lemma NotificationNameInjective(a: NotificationScreen, b: NotificationScreen)
    requires NotificationName(a) == NotificationName(b)
    ensures a == b
  {
  }

  lemma DeviceInfoNameInjective(a: DeviceInfoScreen, b: DeviceInfoScreen)
    requires DeviceInfoName(a) == DeviceInfoName(b)
    ensures a == b
  {
  }

  lemma CyanogenModNameInjective(a: CyanogenModScreen, b: CyanogenModScreen)
    requires CyanogenModName(a) == CyanogenModName(b)
    ensures a == b
  {
  }

  lemma RazerNameInjective(a: RazerScreen, b: RazerScreen)
    requires RazerName(a) == RazerName(b)
    ensures a == b
  {
  }

  /** Within one package, simple names are distinct. */
  lemma SimpleNameInjective(a: ScreenClass, b: ScreenClass)
    requires PackageOf(a) == PackageOf(b) && SimpleName(a) == SimpleName(b)
    ensures a == b
  {
    match a
    case InSettings(r) => RootNameInjective(r, b.root);
    case InWifi(w) => WifiNameInjective(w, b.wifi);
    case InNotification(n) => NotificationNameInjective(n, b.notification);
    case InDeviceInfo(d) => DeviceInfoNameInjective(d, b.deviceInfo);
    case InCyanogenMod(m) => CyanogenModNameInjective(m, b.cyanogenMod);
    case InRazer(z) => RazerNameInjective(z, b.razer);
    case _ =>
  }

  /** In a segment, '.', rest, the first '.' sits right after the segment. */
  lemma FirstDotAfterSegment(w: string, r: string)
    requires '.' !in w
    ensures (w + "." + r)[|w|] == '.'
    ensures forall i :: 0 <= i < |w| ==> (w + "." + r)[i] != '.'
  {
    forall i | 0 <= i < |w|
      ensures (w + "." + r)[i] != '.'
    {
      assert (w + "." + r)[i] == w[i] && w[i] in w;
    }
  }

  /** Splitting at the first '.' recovers a dot-free leading segment. */
  lemma FirstSegmentUnique(w1: string, r1: string, w2: string, r2: string)
    requires '.' !in w1 && '.' !in w2
    requires w1 + "." + r1 == w2 + "." + r2
    ensures w1 == w2 && r1 == r2
  {
    var s := w1 + "." + r1;
    FirstDotAfterSegment(w1, r1);
    FirstDotAfterSegment(w2, r2);
    if |w1| < |w2| {
      assert false;
    } else if |w2| < |w1| {
      assert false;
    }
    assert w1 == s[..|w1|] && w2 == s[..|w2|];
    assert r1 == s[|w1| + 1..] && r2 == s[|w2| + 1..];
  }

  /** The part of a class name after "com.android.settings.". */
  function RelativeName(c: ScreenClass): string {
    if PackageOf(c) == Settings then SimpleName(c)
    else Subpackage(PackageOf(c)) + "." + SimpleName(c)
  }

  lemma ClassNameIsRootRelative(c: ScreenClass)
    ensures ClassName(c) == ROOT_PACKAGE + "." + RelativeName(c)
  {
    if PackageOf(c) != Settings {
      var sub, simple := Subpackage(PackageOf(c)), SimpleName(c);
      assert ROOT_PACKAGE + "." + sub + "." + simple == ROOT_PACKAGE + "." + (sub + "." + simple);
    }
  }

  /** A name directly in com.android.settings never equals one in a subpackage. */
  lemma {:induction false} RootAndSubpackageDiffer(a: ScreenClass, b: ScreenClass)
    requires PackageOf(a) == Settings && PackageOf(b) != Settings
    ensures RelativeName(a) != RelativeName(b)
  {
    RootNameCapitalized(a.root);
    SubpackageIsSegment(PackageOf(b));
    var sub := Subpackage(PackageOf(b));
    assert (sub + "." + SimpleName(b))[0] == sub[0];
  }

  /** Names in two subpackages agree only for the same package and simple name. */
  lemma SubpackageNamesAgree(a: ScreenClass, b: ScreenClass)
    requires PackageOf(a) != Settings && PackageOf(b) != Settings
    requires RelativeName(a) == RelativeName(b)
    ensures PackageOf(a) == PackageOf(b) && SimpleName(a) == SimpleName(b)
  {
    var pa, pb := PackageOf(a), PackageOf(b);
    SubpackageIsSegment(pa);
    SubpackageIsSegment(pb);
    FirstSegmentUnique(Subpackage(pa), SimpleName(a), Subpackage(pb), SimpleName(b));
    SubpackageInjective(pa, pb);
  }

  /** Distinct screen classes have distinct relative names. */
  lemma RelativeNameInjective(a: ScreenClass, b: ScreenClass)
    requires RelativeName(a) == RelativeName(b)
    ensures a == b
  {
    var pa, pb := PackageOf(a), PackageOf(b);
    if pa == Settings && pb == Settings {
      SimpleNameInjective(a, b);
    } else if pa == Settings {
      RootAndSubpackageDiffer(a, b);
    } else if pb == Settings {
      RootAndSubpackageDiffer(b, a);
    } else {
      SubpackageNamesAgree(a, b);
      SimpleNameInjective(a, b);
    }
  }

  /** Distinct screen classes have distinct fully qualified names. */
  lemma ClassNameInjective(a: ScreenClass, b: ScreenClass)
    requires ClassName(a) == ClassName(b)
    ensures a == b
  {
    ClassNameIsRootRelative(a);
    ClassNameIsRootRelative(b);
    var prefix := ROOT_PACKAGE + ".";
    assert (prefix + RelativeName(a))[|prefix|..] == RelativeName(a);
    assert (prefix + RelativeName(b))[|prefix|..] == RelativeName(b);
    RelativeNameInjective(a, b);
  }

  /** getName() spells a qualified name out with its package. */
  lemma WifiSettingsClassName()
    ensures ClassName(InWifi(WifiSettings)) == "com.android.settings.wifi.WifiSettings"
  {
  }
}
