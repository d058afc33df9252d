/**
 * The Android resources the search registry refers to.
 *
 * Each constructor is named after the generated field (`R.xml.<name>`,
 * `R.drawable.<name>`). The integer ids behind them are assigned by the
 * resource compiler at build time, so the model takes them as a parameter.
 */
module AndroidResources {

  /** The preference-screen XML resources named by the registry (`R.xml.*`). */
  datatype XmlRes =
    | wifi_advanced_settings
    | wifi_display_saved_access_points
    | razer_lockscreen_settings
    | zen_mode_settings
    | usb_settings
    | power_usage_summary
    | location_settings
    | date_time_prefs
    | status_bar_settings
    | notification_drawer_settings
    | recents_settings
    | navbar_settings
    | status_bar_clock_style
    | status_bar_battery_status_settings
    | razer_display_settings
    | razer_battery_style
    | razer_sound_settings
    | razer_navigation_settings
    | razer_interface_settings
    | animation_settings
    | razer_smartcontrol

  /** The icons named by the registry (`R.drawable.*`). */
  datatype DrawableRes =
    | ic_settings_wireless
    | ic_settings_bluetooth2
    | ic_sim_sd
    | ic_settings_data_usage
    | ic_settings_more
    | ic_razer_interface
    | ic_settings_home
    | ic_settings_display
    | ic_settings_notifications
    | ic_settings_storage
    | ic_settings_battery
    | ic_settings_multiuser
    | ic_settings_location
    | ic_settings_security
    | ic_settings_language
    | ic_settings_backup
    | ic_settings_date_time
    | ic_settings_accessibility
    | ic_settings_print
    | ic_settings_development
    | ic_settings_about
    | ic_settings_buttons
    | ic_settings_extdesk_hidenavbar
    | ic_settings_notification_drawer
    | ic_settings_privacy
    | ic_settings_smartcontrol

  /** The build's assignment of integer ids to resources (the generated `R` class). */
  datatype ResourceIds = ResourceIds(xml: XmlRes -> int, drawable: DrawableRes -> int)

  /**
   * Ids produced by the resource compiler are never 0; that is what lets 0
   * serve as "no XML resource" in the registry.
   */
  ghost predicate Generated(ids: ResourceIds) {
    forall x: XmlRes :: ids.xml(x) != 0
  }
}
