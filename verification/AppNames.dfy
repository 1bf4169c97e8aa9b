/**
 * getAppDisplayName (ScreenTimeViewModel.kt): a fixed table from package names
 * to display names, with the package's last dot-separated segment for any
 * package the table does not list.
 */
module AppNames {
  import opened Wrappers
  import opened Text

  /** The `when (packageName)` table, in its order. */
  const DisplayNameTable: seq<(string, string)> := [
      ("com.example.clarimind", "ClariMind"),
      ("com.whatsapp", "WhatsApp"),
      ("com.facebook.katana", "Facebook"),
      ("com.instagram.android", "Instagram"),
      ("com.twitter.android", "Twitter"),
      ("com.google.android.youtube", "YouTube"),
      ("com.google.android.apps.maps", "Maps"),
      ("com.google.android.gm", "Gmail"),
      ("com.android.chrome", "Chrome"),
      ("com.android.settings", "Settings"),
      ("com.android.systemui", "System UI"),
      ("com.google.android.apps.photos", "Photos"),
      ("com.spotify.music", "Spotify"),
      ("com.netflix.mediaclient", "Netflix"),
      ("com.discord", "Discord"),
      ("com.snapchat.android", "Snapchat"),
      ("com.reddit.frontpage", "Reddit"),
      ("com.pinterest", "Pinterest"),
      ("com.linkedin.android", "LinkedIn"),
      ("com.microsoft.teams", "Teams"),
      ("com.skype.raider", "Skype"),
      ("com.zoom.us", "Zoom"),
      ("com.google.android.apps.docs.editors.docs", "Google Docs"),
      ("com.google.android.apps.docs.editors.sheets", "Google Sheets"),
      ("com.google.android.apps.docs.editors.slides", "Google Slides"),
      ("com.google.android.calendar", "Calendar"),
      ("com.google.android.keep", "Keep"),
      ("com.google.android.apps.drive", "Drive"),
      ("com.google.android.apps.meetings", "Meet"),
      ("com.google.android.apps.classroom", "Classroom"),
      ("com.google.android.apps.translate", "Translate"),
      ("com.google.android.apps.messaging", "Messages"),
      ("com.google.android.apps.contacts", "Contacts"),
      ("com.google.android.apps.phone", "Phone"),
      ("com.google.android.apps.camera", "Camera"),
      ("com.google.android.apps.gallery", "Gallery"),
      ("com.google.android.apps.music", "Music"),
      ("com.google.android.apps.videos", "Videos"),
      ("com.google.android.apps.books", "Books"),
      ("com.google.android.apps.magazines", "News"),
      ("com.google.android.apps.weather", "Weather"),
      ("com.google.android.apps.fitness", "Fitness"),
      ("com.google.android.apps.walletnfcrel", "Wallet"),
      ("com.google.android.apps.pay", "Google Pay"),
      ("com.google.android.apps.tachyon", "Duo"),
      ("com.google.android.dialer", "Phone"),
      ("com.android.launcher", "Home Screen"),
      ("com.oplus.sos", "Emergency"),
      ("com.amazon.dee.app", "Amazon"),
      ("com.oplus.wirelesssettings", "WiFi Settings"),
      ("com.google.android.contacts", "Contacts"),
      ("com.coloros.alarmclock", "Clock"),
      ("com.oplus.camera", "Camera"),
      ("com.oppo.quicksearchbox", "Search"),
      ("com.iodkols.onekeylockscreen", "Lock Screen"),
      ("com.google.android.permissioncontroller", "Permissions"),
      ("com.android.server.telecom", "Phone Service"),
      ("com.google.android.gms", "Google Services"),
      ("com.oplus.romupdate", "System Update"),
      ("com.android.vending", "Play Store"),
      ("in.amazon.mShop.android.shopping", "Amazon Shopping"),
      ("com.google.android.googlequicksearchbox", "Google Search"),
      ("org.telegram.messenger", "Telegram"),
      ("com.coloros.weather2", "Weather"),
      ("com.coloros.weather.service", "Weather Service"),
      ("com.oplus.healthservice", "Health Service"),
      ("com.oplus.screenshot", "Screenshot"),
      ("com.oplus.wallpapers", "Wallpapers"),
      ("com.oplus.battery", "Battery"),
      ("com.oplus.gesture", "Gestures"),
      ("com.oplus.securitypermission", "Security"),
      ("com.oplus.account", "Account"),
      ("com.oplus.appplatform", "App Platform"),
      ("com.oplus.notificationmanager", "Notifications"),
      ("com.oplus.mediacontroller", "Media Controller"),
      ("com.oplus.powermonitor", "Power Monitor"),
      ("com.oplus.trafficmonitor", "Traffic Monitor"),
      ("com.oplus.statistics.rom", "Statistics"),
      ("com.oplus.cosa", "COSA"),
      ("com.oplus.lfeh", "LFEH"),
      ("com.oplus.athena", "Athena"),
      ("com.oplus.deepthinker", "Deep Thinker"),
      ("com.oplus.nas", "NAS"),
      ("com.oplus.nhs", "NHS"),
      ("com.oplus.olc", "OLC"),
      ("com.oplus.sau", "SAU"),
      ("com.oplus.rom", "ROM"),
      ("com.oplus.ota", "OTA"),
      ("com.oplus.crashbox", "Crash Box"),
      ("com.oplus.exsystemservice", "System Service"),
      ("com.oplus.subsys", "Subsystem"),
      ("com.oplus.atlas", "Atlas"),
      ("com.oplus.stdid", "STDID"),
      ("com.oplus.melody", "Melody"),
      ("com.oplus.wifibackuprestore", "WiFi Backup"),
      ("com.oplus.accessory", "Accessory"),
      ("com.oplus.audio.effectcenter", "Audio Effects"),
      ("com.oplus.location", "Location"),
      ("com.oplus.screenrecorder", "Screen Recorder"),
      ("com.oplus.backuprestore", "Backup Restore"),
      ("com.oplus.photopicker", "Photo Picker")
  ]

  /** The name of the first table row for the package, if any. */
  function LookupName(table: seq<(string, string)>, packageName: string): Option<string> {
    if table == [] then None
    else if table[0].0 == packageName then Some(table[0].1)
    else LookupName(table[1..], packageName)
  }

  /**
   * Like a `when`, the lookup answers with the name of the first row whose
   * package matches, and with nothing when no row matches.
   */
  lemma {:induction false} LookupNameFirstMatch(table: seq<(string, string)>, packageName: string)
    ensures LookupName(table, packageName).None? <==> forall i :: 0 <= i < |table| ==> table[i].0 != packageName
    ensures LookupName(table, packageName).Some? ==>
              exists i :: 0 <= i < |table| && table[i].0 == packageName
                          && LookupName(table, packageName).value == table[i].1
                          && forall j :: 0 <= j < i ==> table[j].0 != packageName
  {
    if table != [] && table[0].0 != packageName {
      var rest := table[1..];
      LookupNameFirstMatch(rest, packageName);
      assert forall i :: 1 <= i < |table| ==> table[i] == rest[i - 1];
      if LookupName(rest, packageName).Some? {
        var i :| 0 <= i < |rest| && rest[i].0 == packageName
                 && LookupName(rest, packageName).value == rest[i].1
                 && forall j :: 0 <= j < i ==> rest[j].0 != packageName;
        assert table[i + 1] == rest[i];
        assert forall j :: 0 <= j < i + 1 ==> table[j].0 != packageName by {
          forall j | 0 <= j < i + 1 ensures table[j].0 != packageName {
            if j > 0 {
              assert table[j] == rest[j - 1];
            }
          }
        }
      }
    }
  }

  /** The display name with a given table: its name, else the text after the last '.'. */
  function DisplayNameIn(table: seq<(string, string)>, packageName: string): string {
    match LookupName(table, packageName)
    case Some(name) => name
    case None => SubstringAfterLast(packageName, '.')
  }

  /** getAppDisplayName. */
  function DisplayName(packageName: string): string {
    DisplayNameIn(DisplayNameTable, packageName)
  }

  /**
   * A package no row lists is named by its last dot-separated segment, which
   * holds no '.', or by the whole string when it has no '.'.
   */
  lemma UnlistedName(table: seq<(string, string)>, packageName: string)
    requires forall i :: 0 <= i < |table| ==> table[i].0 != packageName
    ensures forall j :: 0 <= j < |DisplayNameIn(table, packageName)| ==> DisplayNameIn(table, packageName)[j] != '.'
    ensures (forall j :: 0 <= j < |packageName| ==> packageName[j] != '.') ==> DisplayNameIn(table, packageName) == packageName
  {
    LookupNameFirstMatch(table, packageName);
  }
}
