/**
 * The list entry of a peer device on the scan screen: the title it shows, the
 * identifier its click handlers report, and the signal-strength icon chosen
 * from the device's last RSSI reading and its connection state.
 */
module AvailableDevice {
  import opened Wrappers

  /** The fields of a stored peer device that the list entry reads. */
  datatype Device = Device(userId: string, name: Option<string>, rssi: int, connected: bool)

  /** The Material icons the entry can show for signal strength. */
  datatype SignalIcon =
    | SignalWifiBad
    | SignalWifiOff
    | NetworkWifi
    | NetworkWifi3Bar
    | NetworkWifi2Bar
    | NetworkWifi1Bar
    | SignalWifiStatusbarConnectedNoInternet4

  /**
   * The icon for a reading, as the nested if/else of the entry chooses it. A
   * connected device with a reading always gets one of the five strength
   * icons; the two "no signal" icons are kept for the other cases.
   */
  function SignalIconOf(rssi: int, connected: bool): (icon: SignalIcon)
    ensures (icon == SignalWifiBad || icon == SignalWifiOff) <==> rssi == 0 || !connected
  {
    if rssi == 0 then SignalWifiBad
    else if !connected then SignalWifiOff
    else if rssi >= -60 then NetworkWifi
    else if rssi >= -70 then NetworkWifi3Bar
    else if rssi >= -80 then NetworkWifi2Bar
    else if rssi >= -90 then NetworkWifi1Bar
    else SignalWifiStatusbarConnectedNoInternet4
  }

  /**
   * A ranking of the strength icons from strongest (4) to weakest (0). The
   * weakest bucket's icon is the no-internet glyph, ranked below the one-bar
   * icon; the two "no signal" icons are ranked 0 as well.
   */
  function StrengthRank(icon: SignalIcon): nat
  {
    match icon
    case NetworkWifi => 4
    case NetworkWifi3Bar => 3
    case NetworkWifi2Bar => 2
    case NetworkWifi1Bar => 1
    case _ => 0
  }

  /** A zero reading means "no reading": the icon is SignalWifiBad whether or not the device is connected. */
  lemma ZeroRssiIsBad(connected: bool)
    ensures SignalIconOf(0, connected) == SignalWifiBad
    ensures forall rssi :: SignalIconOf(rssi, connected) == SignalWifiBad ==> rssi == 0
  {
  }

  /** A device that is not connected but has a nonzero reading shows SignalWifiOff, and only such a device does. */
  lemma DisconnectedIsOff(rssi: int, connected: bool)
    ensures SignalIconOf(rssi, connected) == SignalWifiOff <==> rssi != 0 && !connected
  {
  }

  /**
   * For a connected device with a reading, the five buckets are the half-open
   * ranges [-60, oo), [-70, -60), [-80, -70), [-90, -80) and (-oo, -90): each
   * reading falls in exactly one, and the icon names that one.
   */
  lemma ConnectedBuckets(rssi: int)
    requires rssi != 0
    ensures SignalIconOf(rssi, true) == NetworkWifi <==> rssi >= -60
    ensures SignalIconOf(rssi, true) == NetworkWifi3Bar <==> -70 <= rssi < -60
    ensures SignalIconOf(rssi, true) == NetworkWifi2Bar <==> -80 <= rssi < -70
    ensures SignalIconOf(rssi, true) == NetworkWifi1Bar <==> -90 <= rssi < -80
    ensures SignalIconOf(rssi, true) == SignalWifiStatusbarConnectedNoInternet4 <==> rssi < -90
  {
  }

  /** For connected devices with a reading, a stronger signal never gets a lower-ranked icon. */
  lemma StrengthMonotone(weaker: int, stronger: int)
    requires weaker != 0 && stronger != 0
    requires weaker <= stronger
    ensures StrengthRank(SignalIconOf(weaker, true)) <= StrengthRank(SignalIconOf(stronger, true))
  {
  }

  /** The monotonicity stops at zero: a strong reading ranks highest, a zero reading lowest. */
  lemma ZeroBreaksMonotonicity()
    ensures StrengthRank(SignalIconOf(-50, true)) > StrengthRank(SignalIconOf(0, true))
  {
  }

  /** The entry's title: the device's name when it has one, otherwise its user id. */
  function Title(device: Device): (title: string)
    ensures device.name.Some? ==> title == device.name.value
    ensures device.name.None? ==> title == device.userId
  {
    device.name.GetOr(device.userId)
  }

  /** The identifier a click (long or short) on the entry reports to its handler. */
  function ClickTarget(device: Device, longClick: bool): (id: string)
    ensures id == device.userId
    ensures id == Title(device) <==> device.name.None? || device.name.value == device.userId
  {
    device.userId
  }

  /** A click reports the user id even when the title shows a different name. */
  lemma ClickReportsIdNotTitle(device: Device, longClick: bool)
    requires device.name.Some? && device.name.value != device.userId
    ensures ClickTarget(device, longClick) == device.userId
    ensures ClickTarget(device, longClick) != Title(device)
    ensures ClickTarget(device, true) == ClickTarget(device, false)
  {
  }
}
