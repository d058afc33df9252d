/**
 * The search registry of the Settings app: a map from the fully qualified
 * class name of a settings screen to the SearchIndexableResource the search
 * indexer starts from (its rank, its preference XML, its class and its icon).
 *
 * The map is filled once, by one put per screen, and afterwards only read.
 * The ranking of a class name and the generated resource ids come from
 * outside this component and are parameters of the model.
 */
module Search {
  import opened Wrappers
  import opened AndroidResources
  import opened Screens

  /** The xmlResId of a screen that has no preference XML to index. */
  const NO_DATA_RES_ID: int := 0

  /** android.provider.SearchIndexableResource, with the fields the registry sets. */
  datatype SearchIndexableResource =
    SearchIndexableResource(rank: int, xmlResId: int, className: string, iconResId: int)

  /** What one put supplies: the key, which is also the record's class name, and two ids. */
  datatype Entry = Entry(className: string, xmlResId: int, iconResId: int)

  type ResourceMap = map<string, SearchIndexableResource>

  /**
   * The record a put of e stores: it names the class it is keyed by, is ranked
   * by that name, and carries the put's two resource ids.
   */
  function Record(rankFor: string -> int, e: Entry): SearchIndexableResource {
    SearchIndexableResource(rankFor(e.className), e.xmlResId, e.className, e.iconResId)
  }

  /** HashMap.get: the value stored under name, or None for Java's null. */
  function Lookup(m: ResourceMap, name: string): Option<SearchIndexableResource> {
    if name in m then Some(m[name]) else None
  }

  // ---------------------------------------------------------------------
  // A sequence of puts
  // ---------------------------------------------------------------------

  /** The map after putting each of entries into m, in order. */
  function AfterPuts(m: ResourceMap, rankFor: string -> int, entries: seq<Entry>): (r: ResourceMap)
    ensures m.Keys <= r.Keys
    decreases |entries|
  {
    if entries == [] then m
    else
      var last := entries[|entries| - 1];
      AfterPuts(m, rankFor, entries[..|entries| - 1])[last.className := Record(rankFor, last)]
  }

  /** The position of the last entry whose key is name, if any. */
  function LastIndexOf(entries: seq<Entry>, name: string): (r: Option<nat>)
    ensures r.Some? ==> r.value < |entries| && entries[r.value].className == name
    ensures r.Some? ==> forall j :: r.value < j < |entries| ==> entries[j].className != name
    ensures r.None? <==> forall j :: 0 <= j < |entries| ==> entries[j].className != name
    decreases |entries|
  {
    if entries == [] then None
    else if entries[|entries| - 1].className == name then Some(|entries| - 1)
    else LastIndexOf(entries[..|entries| - 1], name)
  }

  /** The keys the entries put. */
  function Names(entries: seq<Entry>): (s: set<string>)
    ensures forall k :: k in s <==> exists j :: 0 <= j < |entries| && entries[j].className == k
    decreases |entries|
  {
    if entries == [] then {}
    else Names(entries[..|entries| - 1]) + {entries[|entries| - 1].className}
  }

  /** No two entries share a key. */
  predicate Distinct(entries: seq<Entry>) {
    forall i, j :: 0 <= i < j < |entries| ==> entries[i].className != entries[j].className
  }

  /** Every record is stored under its own class name and carries that name's rank. */
  ghost predicate KeyConsistent(m: ResourceMap, rankFor: string -> int) {
    forall k :: k in m ==> m[k].className == k && m[k].rank == rankFor(k)
  }

  /**
   * Looking a name up after the puts finds the record of the last put with
   * that key; a name no entry puts is looked up in the map as it was.
   */
  lemma {:induction false} AfterPutsLookup(m: ResourceMap, rankFor: string -> int, entries: seq<Entry>, name: string)
    ensures Lookup(AfterPuts(m, rankFor, entries), name) ==
      match LastIndexOf(entries, name)
      case Some(i) => Some(Record(rankFor, entries[i]))
      case None => Lookup(m, name)
    decreases |entries|
  {
    if entries != [] {
      var init, last := entries[..|entries| - 1], entries[|entries| - 1];
      if last.className != name {
        AfterPutsLookup(m, rankFor, init, name);
        assert LastIndexOf(entries, name) == LastIndexOf(init, name);
      }
    }
  }

  /** One more put changes the record of its own key and no other. */
  lemma PutReplacesOnlyItsKey(m: ResourceMap, rankFor: string -> int, entries: seq<Entry>, e: Entry, name: string)
    ensures Lookup(AfterPuts(m, rankFor, entries + [e]), name) ==
      if name == e.className then Some(Record(rankFor, e)) else Lookup(AfterPuts(m, rankFor, entries), name)
  {
    assert (entries + [e])[..|entries|] == entries;
  }

  /** When a key is put twice in a row, the first record is lost: the later put wins. */
  lemma RepeatedPutOverwrites(m: ResourceMap, rankFor: string -> int, entries: seq<Entry>, first: Entry, second: Entry)
    requires first.className == second.className
    ensures AfterPuts(m, rankFor, entries + [first, second]) == AfterPuts(m, rankFor, entries + [second])
  {
    assert (entries + [first, second])[..|entries| + 1] == entries + [first];
    assert (entries + [first])[..|entries|] == entries;
    assert (entries + [second])[..|entries|] == entries;
  }

  /** The puts add exactly their own keys. */
  lemma {:induction false} AfterPutsKeys(m: ResourceMap, rankFor: string -> int, entries: seq<Entry>)
    ensures AfterPuts(m, rankFor, entries).Keys == m.Keys + Names(entries)
    decreases |entries|
  {
    if entries != [] {
      AfterPutsKeys(m, rankFor, entries[..|entries| - 1]);
    }
  }

  /** Puts keep every record under its own class name with that name's rank. */
  lemma {:induction false} AfterPutsConsistent(m: ResourceMap, rankFor: string -> int, entries: seq<Entry>)
    requires KeyConsistent(m, rankFor)
    ensures KeyConsistent(AfterPuts(m, rankFor, entries), rankFor)
    decreases |entries|
  {
    if entries != [] {
      AfterPutsConsistent(m, rankFor, entries[..|entries| - 1]);
    }
  }

  /** Entries with distinct keys put as many keys as there are entries. */
  lemma {:induction false} DistinctNamesCount(entries: seq<Entry>)
    requires Distinct(entries)
    ensures |Names(entries)| == |entries|
    decreases |entries|
  {
    if entries != [] {
      var init, last := entries[..|entries| - 1], entries[|entries| - 1];
      assert Distinct(init);
      DistinctNamesCount(init);
      assert last.className !in Names(init);
    }
  }

  /** Putting distinct keys into an empty map gives one key per entry. */
  lemma AfterPutsSize(rankFor: string -> int, entries: seq<Entry>)
    requires Distinct(entries)
    ensures |AfterPuts(map[], rankFor, entries)| == |entries|
  {
    AfterPutsKeys(map[], rankFor, entries);
    DistinctNamesCount(entries);
    assert AfterPuts(map[], rankFor, entries).Keys == Names(entries);
  }

  /** With distinct keys, every entry's record is found under its key. */
  lemma DistinctLookup(m: ResourceMap, rankFor: string -> int, entries: seq<Entry>, i: nat)
    requires Distinct(entries) && i < |entries|
    ensures Lookup(AfterPuts(m, rankFor, entries), entries[i].className) == Some(Record(rankFor, entries[i]))
  {
    assert LastIndexOf(entries, entries[i].className) == Some(i);
    AfterPutsLookup(m, rankFor, entries, entries[i].className);
  }

  // ---------------------------------------------------------------------
  // The table the static initializer puts
  // ---------------------------------------------------------------------

  /** The XML argument of a put: a preference screen, or NO_DATA_RES_ID. */
  datatype XmlSource = NoData | Xml(res: XmlRes)

  /** One put of the static initializer, before resource ids are assigned. */
  datatype Registration = Registration(screen: ScreenClass, xml: XmlSource, icon: DrawableRes)

  const REGISTRATION_COUNT: nat := 46

  /** The i-th put of the static initializer, in source order. */
  function StaticRegistration(i: nat): Registration
    requires i < REGISTRATION_COUNT
  {
    match i
    case 0 => Registration(InWifi(WifiSettings), NoData, ic_settings_wireless)
    case 1 => Registration(InWifi(AdvancedWifiSettings), Xml(wifi_advanced_settings), ic_settings_wireless)
    case 2 => Registration(InWifi(SavedAccessPointsWifiSettings), Xml(wifi_display_saved_access_points), ic_settings_wireless)
    case 3 => Registration(BluetoothSettings, NoData, ic_settings_bluetooth2)
    case 4 => Registration(SimSettings, NoData, ic_sim_sd)
    case 5 => Registration(InSettings(DataUsageSummary), NoData, ic_settings_data_usage)
    case 6 => Registration(DataUsageMeteredSettings, NoData, ic_settings_data_usage)
    case 7 => Registration(InSettings(WirelessSettings), NoData, ic_settings_more)
    case 8 => Registration(InRazer(LockScreenSettings), Xml(razer_lockscreen_settings), ic_razer_interface)
    case 9 => Registration(InSettings(HomeSettings), NoData, ic_settings_home)
    case 10 => Registration(InSettings(DisplaySettings), NoData, ic_settings_display)
    case 11 => Registration(InSettings(SoundSettings), NoData, ic_settings_notifications)
    case 12 => Registration(InNotification(NotificationManagerSettings), NoData, ic_settings_notifications)
    case 13 => Registration(InNotification(OtherSoundSettings), NoData, ic_settings_notifications)
    case 14 => Registration(InNotification(ZenModeSettings), Xml(zen_mode_settings), ic_settings_notifications)
    case 15 => Registration(InDeviceInfo(Memory), NoData, ic_settings_storage)
    case 16 => Registration(InDeviceInfo(UsbSettings), Xml(usb_settings), ic_settings_storage)
    case 17 => Registration(PowerUsageSummary, Xml(power_usage_summary), ic_settings_battery)
    case 18 => Registration(UserSettings, NoData, ic_settings_multiuser)
    case 19 => Registration(LocationSettings, Xml(location_settings), ic_settings_location)
    case 20 => Registration(InSettings(SecuritySettings), NoData, ic_settings_security)
    case 21 => Registration(InSettings(ScreenPinningSettings), NoData, ic_settings_security)
    case 22 => Registration(InputMethodAndLanguageSettings, NoData, ic_settings_language)
    case 23 => Registration(VoiceInputSettings, NoData, ic_settings_language)
    case 24 => Registration(InSettings(RootScreen.PrivacySettings), NoData, ic_settings_backup)
    case 25 => Registration(InSettings(DateTimeSettings), Xml(date_time_prefs), ic_settings_date_time)
    case 26 => Registration(AccessibilitySettings, NoData, ic_settings_accessibility)
    case 27 => Registration(PrintSettingsFragment, NoData, ic_settings_print)
    case 28 => Registration(InSettings(DevelopmentSettings), NoData, ic_settings_development)
    case 29 => Registration(InSettings(DeviceInfoSettings), NoData, ic_settings_about)
    case 30 => Registration(InSettings(ButtonSettings), NoData, ic_settings_buttons)
    case 31 => Registration(InCyanogenMod(StatusBarSettings), Xml(status_bar_settings), ic_settings_extdesk_hidenavbar)
    case 32 => Registration(InCyanogenMod(NotificationDrawerSettings), Xml(notification_drawer_settings), ic_settings_notification_drawer)
    case 33 => Registration(InCyanogenMod(CyanogenModScreen.PrivacySettings), NoData, ic_settings_privacy)
    case 34 => Registration(InRazer(AmbientSettings), NoData, ic_settings_display)
    case 35 => Registration(InRazer(RecentsSettings), Xml(recents_settings), ic_razer_interface)
    case 36 => Registration(InRazer(NavbarSettings), Xml(navbar_settings), ic_razer_interface)
    case 37 => Registration(InRazer(StatusBarClockStyle), Xml(status_bar_clock_style), ic_razer_interface)
    case 38 => Registration(InRazer(StatusBarBatteryStatusSettings), Xml(status_bar_battery_status_settings), ic_razer_interface)
    case 39 => Registration(InRazer(RazerDisplaySettings), Xml(razer_display_settings), ic_razer_interface)
    case 40 => Registration(InRazer(BatteryStyle), Xml(razer_battery_style), ic_razer_interface)
    case 41 => Registration(InRazer(RazerSoundSettings), Xml(razer_sound_settings), ic_razer_interface)
    case 42 => Registration(InRazer(NavigationSettings), Xml(razer_navigation_settings), ic_razer_interface)
    case 43 => Registration(InRazer(InterfaceSettings), Xml(razer_interface_settings), ic_razer_interface)
    case 44 => Registration(InRazer(AnimationSettings), Xml(animation_settings), ic_razer_interface)
    case 45 => Registration(InRazer(SmartControl), Xml(razer_smartcontrol), ic_settings_smartcontrol)
  }

  /** The put that registers each screen class. */
  function Position(c: ScreenClass): (i: nat)
    ensures i < REGISTRATION_COUNT && StaticRegistration(i).screen == c
  {
    match c
    case InSettings(s) =>
      (match s
      case DataUsageSummary => 5
      case WirelessSettings => 7
      case HomeSettings => 9
      case DisplaySettings => 10
      case SoundSettings => 11
      case SecuritySettings => 20
      case ScreenPinningSettings => 21
      case PrivacySettings => 24
      case DateTimeSettings => 25
      case DevelopmentSettings => 28
      case DeviceInfoSettings => 29
      case ButtonSettings => 30)
    case InWifi(s) =>
      (match s
      case WifiSettings => 0
      case AdvancedWifiSettings => 1
      case SavedAccessPointsWifiSettings => 2)
    case BluetoothSettings => 3
    case SimSettings => 4
    case DataUsageMeteredSettings => 6
    case InNotification(s) =>
      (match s
      case NotificationManagerSettings => 12
      case OtherSoundSettings => 13
      case ZenModeSettings => 14)
    case InDeviceInfo(s) =>
      (match s
      case Memory => 15
      case UsbSettings => 16)
    case PowerUsageSummary => 17
    case UserSettings => 18
    case LocationSettings => 19
    case InputMethodAndLanguageSettings => 22
    case VoiceInputSettings => 23
    case AccessibilitySettings => 26
    case PrintSettingsFragment => 27
    case InCyanogenMod(s) =>
      (match s
      case StatusBarSettings => 31
      case NotificationDrawerSettings => 32
      case PrivacySettings => 33)
    case InRazer(s) =>
      (match s
      case LockScreenSettings => 8
      case AmbientSettings => 34
      case RecentsSettings => 35
      case NavbarSettings => 36
      case StatusBarClockStyle => 37
      case StatusBarBatteryStatusSettings => 38
      case RazerDisplaySettings => 39
      case BatteryStyle => 40
      case RazerSoundSettings => 41
      case NavigationSettings => 42
      case InterfaceSettings => 43
      case AnimationSettings => 44
      case SmartControl => 45)
  }

  /** Each put registers a different screen, so Position inverts StaticRegistration. */
  lemma RegistrationPositions(i: nat)
    requires i < REGISTRATION_COUNT
    ensures Position(StaticRegistration(i).screen) == i
  {
    if i < 12 {
      PositionsOfPuts0To11(i);
    } else if i < 24 {
      PositionsOfPuts12To23(i);
    } else if i < 36 {
      PositionsOfPuts24To35(i);
    } else {
      PositionsOfPuts36To45(i);
    }
  }

  lemma PositionsOfPuts0To11(i: nat)
    requires i < 12
    ensures Position(StaticRegistration(i).screen) == i
  {
  }

  lemma PositionsOfPuts12To23(i: nat)
    requires 12 <= i < 24
    ensures Position(StaticRegistration(i).screen) == i
  {
  }

  lemma PositionsOfPuts24To35(i: nat)
    requires 24 <= i < 36
    ensures Position(StaticRegistration(i).screen) == i
  {
  }

  lemma PositionsOfPuts36To45(i: nat)
    requires 36 <= i < REGISTRATION_COUNT
    ensures Position(StaticRegistration(i).screen) == i
  {
  }

  /** The integer passed as xmlResId for an XML argument. */
  function XmlResId(ids: ResourceIds, x: XmlSource): int {
    match x
    case NoData => NO_DATA_RES_ID
    case Xml(res) => ids.xml(res)
  }

  /** With compiler-assigned ids, xmlResId is NO_DATA_RES_ID exactly for screens without XML. */
  lemma NoDataSentinel(ids: ResourceIds, x: XmlSource)
    requires Generated(ids)
    ensures XmlResId(ids, x) == NO_DATA_RES_ID <==> x == NoData
  {
  }

  /** The arguments of a put once ids are assigned. */
  function Resolve(ids: ResourceIds, r: Registration): Entry {
    Entry(ClassName(r.screen), XmlResId(ids, r.xml), ids.drawable(r.icon))
  }

  /** The arguments of all puts of the static initializer, in order. */
  function Configuration(ids: ResourceIds): (es: seq<Entry>)
    ensures |es| == REGISTRATION_COUNT
    ensures forall i :: 0 <= i < |es| ==> es[i].className == ClassName(StaticRegistration(i).screen)
  {
    seq(REGISTRATION_COUNT, i requires 0 <= i < REGISTRATION_COUNT => Resolve(ids, StaticRegistration(i)))
  }

  /** sResMap once the class is initialized. */
  function StaticTable(rankFor: string -> int, ids: ResourceIds): ResourceMap {
    AfterPuts(map[], rankFor, Configuration(ids))
  }

  /** No two puts of the static initializer use the same key. */
  lemma ConfigurationDistinct(ids: ResourceIds)
    ensures Distinct(Configuration(ids))
  {
    var es := Configuration(ids);
    forall i, j | 0 <= i < j < |es|
      ensures es[i].className != es[j].className
    {
      if es[i].className == es[j].className {
        ClassNameInjective(StaticRegistration(i).screen, StaticRegistration(j).screen);
        RegistrationPositions(i);
        RegistrationPositions(j);
      }
    }
  }

  /** The initialized registry holds one record per put: 46. */
  lemma StaticTableSize(rankFor: string -> int, ids: ResourceIds)
    ensures |StaticTable(rankFor, ids)| == REGISTRATION_COUNT
  {
    ConfigurationDistinct(ids);
    AfterPutsSize(rankFor, Configuration(ids));
  }

  /** Every record of the initialized registry is stored under its class name, with its rank. */
  lemma StaticTableConsistent(rankFor: string -> int, ids: ResourceIds)
    ensures KeyConsistent(StaticTable(rankFor, ids), rankFor)
  {
    AfterPutsConsistent(map[], rankFor, Configuration(ids));
  }

  /** Every key of the initialized registry is the class name of a registered screen. */
  lemma StaticTableKeys(rankFor: string -> int, ids: ResourceIds, name: string)
    requires name in StaticTable(rankFor, ids)
    ensures exists c :: ClassName(c) == name
  {
    var es := Configuration(ids);
    AfterPutsKeys(map[], rankFor, es);
    var j :| 0 <= j < |es| && es[j].className == name;
    assert ClassName(StaticRegistration(j).screen) == name;
  }

  /**
   * Looking up a registered screen's class name gives the record its put
   * built: that name, its rank, and the screen's XML and icon ids.
   */
  lemma StaticTableLookup(rankFor: string -> int, ids: ResourceIds, c: ScreenClass)
    ensures Lookup(StaticTable(rankFor, ids), ClassName(c)) ==
      Some(SearchIndexableResource(
        rankFor(ClassName(c)),
        XmlResId(ids, StaticRegistration(Position(c)).xml),
        ClassName(c),
        ids.drawable(StaticRegistration(Position(c)).icon)))
  {
    var i, es := Position(c), Configuration(ids);
    ConfigurationDistinct(ids);
    DistinctLookup(map[], rankFor, es, i);
    assert es[i] == Resolve(ids, StaticRegistration(i));
  }

  /** The key of the i-th put finds the record that put built. */
  lemma RegistrationRecord(rankFor: string -> int, ids: ResourceIds, i: nat)
    requires i < REGISTRATION_COUNT
    ensures var r, name := StaticRegistration(i), ClassName(StaticRegistration(i).screen);
      Lookup(StaticTable(rankFor, ids), name) ==
      Some(SearchIndexableResource(rankFor(name), XmlResId(ids, r.xml), name, ids.drawable(r.icon)))
  {
    RegistrationPositions(i);
    StaticTableLookup(rankFor, ids, StaticRegistration(i).screen);
  }

  /** A name that is not the class name of a registered screen is not found. */
  lemma StaticTableMiss(rankFor: string -> int, ids: ResourceIds, name: string)
    requires forall c :: ClassName(c) != name
    ensures Lookup(StaticTable(rankFor, ids), name) == None
  {
    if name in StaticTable(rankFor, ids) {
      StaticTableKeys(rankFor, ids, name);
    }
  }

  /** In particular, no name outside the com.android.settings package tree is found. */
  lemma OutsidePackageMiss(rankFor: string -> int, ids: ResourceIds, name: string)
    requires !(ROOT_PACKAGE + "." <= name)
    ensures Lookup(StaticTable(rankFor, ids), name) == None
  {
    forall c ensures ClassName(c) != name {
      ClassNameIsRootRelative(c);
    }
    StaticTableMiss(rankFor, ids, name);
  }

  // ---------------------------------------------------------------------
  // Recorded lookups of the table as written
  // ---------------------------------------------------------------------

  /** WifiSettings indexes no XML of its own and shows the wireless icon. */
  lemma WifiSettingsRecord(rankFor: string -> int, ids: ResourceIds)
    ensures Lookup(StaticTable(rankFor, ids), "com.android.settings.wifi.WifiSettings") ==
      Some(SearchIndexableResource(
        rankFor("com.android.settings.wifi.WifiSettings"), NO_DATA_RES_ID,
        "com.android.settings.wifi.WifiSettings", ids.drawable(ic_settings_wireless)))
  {
    WifiSettingsClassName();
    StaticTableLookup(rankFor, ids, InWifi(WifiSettings));
  }

  /** BluetoothSettings indexes no XML of its own. */
  lemma BluetoothSettingsRecord(rankFor: string -> int, ids: ResourceIds)
    ensures Lookup(StaticTable(rankFor, ids), ClassName(BluetoothSettings)) ==
      Some(SearchIndexableResource(
        rankFor(ClassName(BluetoothSettings)), NO_DATA_RES_ID,
        ClassName(BluetoothSettings), ids.drawable(ic_settings_bluetooth2)))
  {
    StaticTableLookup(rankFor, ids, BluetoothSettings);
  }

  /** AdvancedWifiSettings indexes R.xml.wifi_advanced_settings. */
  lemma AdvancedWifiSettingsRecord(rankFor: string -> int, ids: ResourceIds)
    ensures Lookup(StaticTable(rankFor, ids), ClassName(InWifi(AdvancedWifiSettings))) ==
      Some(SearchIndexableResource(
        rankFor(ClassName(InWifi(AdvancedWifiSettings))), ids.xml(wifi_advanced_settings),
        ClassName(InWifi(AdvancedWifiSettings)), ids.drawable(ic_settings_wireless)))
  {
    StaticTableLookup(rankFor, ids, InWifi(AdvancedWifiSettings));
  }

  /** The two PrivacySettings classes are registered under different keys. */
  lemma PrivacySettingsKeysDiffer()
    ensures ClassName(InSettings(RootScreen.PrivacySettings)) != ClassName(InCyanogenMod(CyanogenModScreen.PrivacySettings))
  {
    var root, cm := InSettings(RootScreen.PrivacySettings), InCyanogenMod(CyanogenModScreen.PrivacySettings);
    if ClassName(root) == ClassName(cm) {
      ClassNameInjective(root, cm);
    }
  }

  /** com.android.settings.PrivacySettings indexes no XML and shows the backup icon. */
  lemma PrivacySettingsRecord(rankFor: string -> int, ids: ResourceIds)
    ensures Lookup(StaticTable(rankFor, ids), ClassName(InSettings(RootScreen.PrivacySettings))) ==
      Some(SearchIndexableResource(
        rankFor(ClassName(InSettings(RootScreen.PrivacySettings))), NO_DATA_RES_ID,
        ClassName(InSettings(RootScreen.PrivacySettings)), ids.drawable(ic_settings_backup)))
  {
    RegistrationRecord(rankFor, ids, 24);
  }

  /** com.android.settings.cyanogenmod.PrivacySettings indexes no XML and shows the privacy icon. */
  lemma CyanogenModPrivacySettingsRecord(rankFor: string -> int, ids: ResourceIds)
    ensures Lookup(StaticTable(rankFor, ids), ClassName(InCyanogenMod(CyanogenModScreen.PrivacySettings))) ==
      Some(SearchIndexableResource(
        rankFor(ClassName(InCyanogenMod(CyanogenModScreen.PrivacySettings))), NO_DATA_RES_ID,
        ClassName(InCyanogenMod(CyanogenModScreen.PrivacySettings)), ids.drawable(ic_settings_privacy)))
  {
    RegistrationRecord(rankFor, ids, 33);
  }

  /** A name of no settings screen is not found. */
  lemma NonexistentClassMiss(rankFor: string -> int, ids: ResourceIds)
    ensures Lookup(StaticTable(rankFor, ids), "nonexistent.Class") == None
  {
    OutsidePackageMiss(rankFor, ids, "nonexistent.Class");
  }

  // ---------------------------------------------------------------------
  // The registry object
  // ---------------------------------------------------------------------

  /**
   * SearchIndexableResources: its static map sResMap, filled by the static
   * initializer and afterwards only read. The ranking it consults while
   * filling the map is fixed for the object's lifetime.
   */
  class SearchIndexableResources {
    const rankFor: string -> int
    var resMap: ResourceMap
    /** Set once the static initializer is done: sResMap is private, so no put follows. */
    ghost var sealed: bool

    /** Every record is stored under its own class name, with that name's rank. */
    ghost predicate Valid()
      reads this
    {
      KeyConsistent(resMap, rankFor)
    }

    /** The static initializer: one put per registered screen, in source order. */
    constructor (rankFor: string -> int, ids: ResourceIds)
      ensures this.rankFor == rankFor
      ensures resMap == StaticTable(rankFor, ids)
      ensures Valid()
      ensures sealed
    {
      this.rankFor := rankFor;
      resMap := map[];
      sealed := false;
      new;
      PutAll(Configuration(ids));
      sealed := true;
    }

    /** The puts of the static initializer, one after the other. */
    method PutAll(entries: seq<Entry>)
      requires !sealed
      modifies this`resMap
      ensures resMap == AfterPuts(old(resMap), rankFor, entries)
      ensures old(Valid()) ==> Valid()
    {
      ghost var start := resMap;
      var i := 0;
      while i < |entries|
        invariant 0 <= i <= |entries|
        invariant resMap == AfterPuts(start, rankFor, entries[..i])
        invariant old(Valid()) ==> Valid()
      {
        assert entries[..i + 1][..i] == entries[..i];
        Put(entries[i]);
        i := i + 1;
      }
      assert entries[..i] == entries;
    }

    /**
     * sResMap.put(e.className, new SearchIndexableResource(rank, xml, e.className, icon)),
     * which only the static initializer performs.
     */
    method Put(e: Entry)
      requires !sealed
      modifies this`resMap
      ensures resMap == old(resMap)[e.className := Record(rankFor, e)]
      ensures old(Valid()) ==> Valid()
    {
      resMap := resMap[e.className := Record(rankFor, e)];
    }

    /** size(): the number of distinct keys. */
    method Size() returns (n: nat)
      ensures n == |resMap.Keys|
    {
      n := |resMap|;
    }

    /** getResourceByName(className): the record stored under className, or null. */
    method GetResourceByName(className: string) returns (r: Option<SearchIndexableResource>)
      ensures r == Lookup(resMap, className)
      ensures Valid() && r.Some? ==> r.value.className == className && r.value.rank == rankFor(className)
    {
      if className in resMap {
        r := Some(resMap[className]);
      } else {
        r := None;
      }
    }

    /**
     * values(): every stored record exactly once, in the map's own
     * unspecified order.
     */
    method Values() returns (vs: seq<SearchIndexableResource>)
      requires Valid()
      ensures |vs| == |resMap|
      ensures forall k :: k in resMap ==> resMap[k] in vs
      ensures forall i :: 0 <= i < |vs| ==> vs[i].className in resMap && resMap[vs[i].className] == vs[i]
      ensures forall i, j :: 0 <= i < j < |vs| ==> vs[i].className != vs[j].className
    {
      vs := [];
      var todo := resMap.Keys;
      while todo != {}
        invariant todo <= resMap.Keys
        invariant |vs| + |todo| == |resMap|
        invariant forall k :: k in resMap && k !in todo ==> resMap[k] in vs
        invariant forall i :: 0 <= i < |vs| ==> vs[i].className in resMap && vs[i].className !in todo
        invariant forall i :: 0 <= i < |vs| ==> resMap[vs[i].className] == vs[i]
        invariant forall i, j :: 0 <= i < j < |vs| ==> vs[i].className != vs[j].className
        decreases |todo|
      {
        var k :| k in todo;
        vs := vs + [resMap[k]];
        todo := todo - {k};
      }
    }
  }

  /**
   * The queries a caller makes once the class is loaded: the registry holds
   * 46 records, finds WifiSettings with its icon and no XML, misses an
   * unknown name, and lists one value per key.
   */
  method QueriesAfterLoading(rankFor: string -> int, ids: ResourceIds)
    returns (size: nat, wifi: Option<SearchIndexableResource>, missing: Option<SearchIndexableResource>,
             values: seq<SearchIndexableResource>)
    ensures size == REGISTRATION_COUNT
    ensures wifi == Some(SearchIndexableResource(
      rankFor("com.android.settings.wifi.WifiSettings"), NO_DATA_RES_ID,
      "com.android.settings.wifi.WifiSettings", ids.drawable(ic_settings_wireless)))
    ensures missing == None
    ensures |values| == size
  {
    var registry := new SearchIndexableResources(rankFor, ids);
    StaticTableSize(rankFor, ids);
    WifiSettingsRecord(rankFor, ids);
    NonexistentClassMiss(rankFor, ids);
    size := registry.Size();
    wifi := registry.GetResourceByName("com.android.settings.wifi.WifiSettings");
    missing := registry.GetResourceByName("nonexistent.Class");
    values := registry.Values();
  }
}
