/**
 * The client's settings store: preferences read from a key-value backend with
 * a hard-coded default per key, and two in-memory registries of consoles, the
 * paired ones keyed by hardware address and the manually entered ones keyed by
 * a locally allocated integer id.
 */
module ChiakiSettings {
  import opened Preferences
  import opened Hosts
  import KeyOrder

  const DiscoveryKey := "settings/auto_discovery"
  const LogVerboseKey := "settings/log_verbose"
  const ZmqStateKey := "settings/zmq_on"
  const ZmqAddrKey := "settings/zmq_addr"
  const FrameZmqStateKey := "settings/frame_zmq_on"
  const FrameZmqAddrKey := "settings/frame_zmq_addr"
  const CmdZmqStateKey := "settings/cmd_zmq_on"
  const CmdZmqAddrKey := "settings/cmd_zmq_addr"
  // The two keys below are not visible in the header; the names are this model's.
  const FpsKey := "settings/fps"
  const AudioBufferSizeKey := "settings/audio_buffer_size"

  const ZmqAddrDefault := "tcp://0.0.0.0:5553"
  const FrameZmqAddrDefault := "tcp://0.0.0.0:5555"
  const CmdZmqAddrDefault := "tcp://0.0.0.0:5554"

  const PreferenceKeys: seq<string> := [
    DiscoveryKey, LogVerboseKey,
    ZmqStateKey, ZmqAddrKey,
    FrameZmqStateKey, FrameZmqAddrKey,
    CmdZmqStateKey, CmdZmqAddrKey,
    FpsKey, AudioBufferSizeKey
  ]

  /** No two preferences share a key, so no setter disturbs another getter. */
  lemma PreferenceKeysDistinct()
    ensures KeyOrder.Distinct(PreferenceKeys)
  {
  }

  /** A frame-rate preset code other than the "automatic" code 0. */
  type FixedFps = n: UInt32 | n != 0 witness 1

  /** A frame-rate preference: "automatic" or one fixed preset. */
  datatype FpsSetting = Automatic | Fixed(fps: FixedFps)

  function FpsSettingOf(code: UInt32): (s: FpsSetting)
    ensures s == Automatic <==> code == 0
    ensures s.Fixed? ==> s.fps == code
  {
    if code == 0 then Automatic else Fixed(code)
  }

  function FpsCode(s: FpsSetting): UInt32
  {
    match s
    case Automatic => 0
    case Fixed(fps) => fps
  }

  /** Decoding a code and encoding it again gives the code back. */
  lemma FpsCodeRoundTrip(code: UInt32)
    ensures FpsCode(FpsSettingOf(code)) == code
  {
  }

  /** Encoding a setting and decoding it again gives the setting back. */
  lemma FpsSettingRoundTrip(s: FpsSetting)
    ensures FpsSettingOf(FpsCode(s)) == s
  {
  }

  function Max(a: int, b: int): int
  {
    if a < b then b else a
  }

  class Settings {
    /** The key-value backend. */
    var settings: Store

    var registeredHosts: map<HostMAC, RegisteredHost>
    var manualHosts: map<int, ManualHost>
    var manualHostsIdNext: int

    /** Every manual host id this store has handed out. */
    ghost var issuedIds: set<int>

    /** Platform values the header names but does not fix. */
    const audioBufferSizeDefault: UInt32
    const fpsDefault: UInt32

    /**
     * A paired host is filed under its own address; a manual host under its
     * own id; and every id handed out is below the next one to be allocated.
     */
    ghost predicate Valid()
      reads this
    {
      && (forall mac :: mac in registeredHosts ==> registeredHosts[mac].serverMac == mac)
      && (forall id :: id in manualHosts ==> manualHosts[id].id == id && id in issuedIds)
      && (forall id :: id in issuedIds ==> 0 <= id < manualHostsIdNext)
      && 0 <= manualHostsIdNext
    }

    constructor (stored: Store, audioBufferSizeDefault: UInt32, fpsDefault: UInt32)
      ensures Valid()
      ensures settings == stored
      ensures registeredHosts == map[] && manualHosts == map[]
      ensures manualHostsIdNext == 0 && issuedIds == {}
      ensures this.audioBufferSizeDefault == audioBufferSizeDefault
      ensures this.fpsDefault == fpsDefault
    {
      settings := stored;
      registeredHosts := map[];
      manualHosts := map[];
      manualHostsIdNext := 0;
      issuedIds := {};
      this.audioBufferSizeDefault := audioBufferSizeDefault;
      this.fpsDefault := fpsDefault;
    }

    // ---- Discovery and logging ------------------------------------------

    function GetDiscoveryEnabled(): (enabled: bool)
      reads this
      ensures DiscoveryKey !in settings ==> enabled
      ensures DiscoveryKey in settings && settings[DiscoveryKey].BoolValue? ==> enabled == settings[DiscoveryKey].b
    {
      BoolPref(settings, DiscoveryKey, true)
    }

    method SetDiscoveryEnabled(enabled: bool)
      modifies this`settings
      ensures settings == old(settings)[DiscoveryKey := BoolValue(enabled)]
      ensures GetDiscoveryEnabled() == enabled
      ensures AgreeExcept(settings, old(settings), DiscoveryKey)
    {
      settings := settings[DiscoveryKey := BoolValue(enabled)];
    }

    function GetLogVerbose(): (verbose: bool)
      reads this
      ensures LogVerboseKey !in settings ==> !verbose
      ensures LogVerboseKey in settings && settings[LogVerboseKey].BoolValue? ==> verbose == settings[LogVerboseKey].b
    {
      BoolPref(settings, LogVerboseKey, false)
    }

    method SetLogVerbose(enabled: bool)
      modifies this`settings
      ensures settings == old(settings)[LogVerboseKey := BoolValue(enabled)]
      ensures GetLogVerbose() == enabled
      ensures AgreeExcept(settings, old(settings), LogVerboseKey)
    {
      settings := settings[LogVerboseKey := BoolValue(enabled)];
    }

    // ---- Messaging transports -------------------------------------------

    function GetZMQState(): (on: bool)
      reads this
      ensures ZmqStateKey !in settings ==> on
      ensures ZmqStateKey in settings && settings[ZmqStateKey].BoolValue? ==> on == settings[ZmqStateKey].b
    {
      BoolPref(settings, ZmqStateKey, true)
    }

    method SetZMQState(enabled: bool)
      modifies this`settings
      ensures settings == old(settings)[ZmqStateKey := BoolValue(enabled)]
      ensures GetZMQState() == enabled
      ensures AgreeExcept(settings, old(settings), ZmqStateKey)
    {
      settings := settings[ZmqStateKey := BoolValue(enabled)];
    }

    function GetZMQAddr(): (addr: string)
      reads this
      ensures ZmqAddrKey !in settings ==> addr == ZmqAddrDefault
      ensures ZmqAddrKey in settings && settings[ZmqAddrKey].StringValue? ==> addr == settings[ZmqAddrKey].s
    {
      StringPref(settings, ZmqAddrKey, ZmqAddrDefault)
    }

    method SetZMQAddr(addr: string)
      modifies this`settings
      ensures settings == old(settings)[ZmqAddrKey := StringValue(addr)]
      ensures GetZMQAddr() == addr
      ensures AgreeExcept(settings, old(settings), ZmqAddrKey)
    {
      settings := settings[ZmqAddrKey := StringValue(addr)];
    }

    function GetFrameZMQState(): (on: bool)
      reads this
      ensures FrameZmqStateKey !in settings ==> on
      ensures FrameZmqStateKey in settings && settings[FrameZmqStateKey].BoolValue? ==> on == settings[FrameZmqStateKey].b
    {
      BoolPref(settings, FrameZmqStateKey, true)
    }

    method SetFrameZMQState(enabled: bool)
      modifies this`settings
      ensures settings == old(settings)[FrameZmqStateKey := BoolValue(enabled)]
      ensures GetFrameZMQState() == enabled
      ensures AgreeExcept(settings, old(settings), FrameZmqStateKey)
    {
      settings := settings[FrameZmqStateKey := BoolValue(enabled)];
    }

    function GetFrameZMQAddr(): (addr: string)
      reads this
      ensures FrameZmqAddrKey !in settings ==> addr == FrameZmqAddrDefault
      ensures FrameZmqAddrKey in settings && settings[FrameZmqAddrKey].StringValue? ==> addr == settings[FrameZmqAddrKey].s
    {
      StringPref(settings, FrameZmqAddrKey, FrameZmqAddrDefault)
    }

    method SetFrameZMQAddr(addr: string)
      modifies this`settings
      ensures settings == old(settings)[FrameZmqAddrKey := StringValue(addr)]
      ensures GetFrameZMQAddr() == addr
      ensures AgreeExcept(settings, old(settings), FrameZmqAddrKey)
    {
      settings := settings[FrameZmqAddrKey := StringValue(addr)];
    }

    function GetCmdZMQState(): (on: bool)
      reads this
      ensures CmdZmqStateKey !in settings ==> on
      ensures CmdZmqStateKey in settings && settings[CmdZmqStateKey].BoolValue? ==> on == settings[CmdZmqStateKey].b
    {
      BoolPref(settings, CmdZmqStateKey, true)
    }

    method SetCmdZMQState(enabled: bool)
      modifies this`settings
      ensures settings == old(settings)[CmdZmqStateKey := BoolValue(enabled)]
      ensures GetCmdZMQState() == enabled
      ensures AgreeExcept(settings, old(settings), CmdZmqStateKey)
    {
      settings := settings[CmdZmqStateKey := BoolValue(enabled)];
    }

    function GetCmdZMQAddr(): (addr: string)
      reads this
      ensures CmdZmqAddrKey !in settings ==> addr == CmdZmqAddrDefault
      ensures CmdZmqAddrKey in settings && settings[CmdZmqAddrKey].StringValue? ==> addr == settings[CmdZmqAddrKey].s
    {
      StringPref(settings, CmdZmqAddrKey, CmdZmqAddrDefault)
    }

    method SetCmdZMQAddr(addr: string)
      modifies this`settings
      ensures settings == old(settings)[CmdZmqAddrKey := StringValue(addr)]
      ensures GetCmdZMQAddr() == addr
      ensures AgreeExcept(settings, old(settings), CmdZmqAddrKey)
    {
      settings := settings[CmdZmqAddrKey := StringValue(addr)];
    }

    // ---- Frame rate -----------------------------------------------------

    /** The stored preset code; 0 when set to "automatic". */
    function GetFPS(): (fps: UInt32)
      reads this
      ensures FpsKey !in settings ==> fps == fpsDefault
      ensures FpsKey in settings && settings[FpsKey].UIntValue? ==> fps == settings[FpsKey].n
    {
      UIntPref(settings, FpsKey, fpsDefault)
    }

    /** The frame-rate preference read as a preset or "automatic". */
    function GetFPSSetting(): (s: FpsSetting)
      reads this
      ensures s == Automatic <==> GetFPS() == 0
      ensures FpsCode(s) == GetFPS()
    {
      FpsSettingOf(GetFPS())
    }

    method SetFPS(fps: UInt32)
      modifies this`settings
      ensures settings == old(settings)[FpsKey := UIntValue(fps)]
      ensures GetFPS() == fps
      ensures GetFPSSetting() == FpsSettingOf(fps)
      ensures AgreeExcept(settings, old(settings), FpsKey)
    {
      settings := settings[FpsKey := UIntValue(fps)];
    }

    // ---- Audio buffer size ----------------------------------------------

    function GetAudioBufferSizeDefault(): (size: UInt32)
      reads this
      ensures size == audioBufferSizeDefault
    {
      audioBufferSizeDefault
    }

    /** The stored size; 0 when set to "automatic" or never set. */
    function GetAudioBufferSizeRaw(): (raw: UInt32)
      reads this
      ensures AudioBufferSizeKey !in settings ==> raw == 0
      ensures AudioBufferSizeKey in settings && settings[AudioBufferSizeKey].UIntValue? ==> raw == settings[AudioBufferSizeKey].n
    {
      UIntPref(settings, AudioBufferSizeKey, 0)
    }

    /** The size to use: the default when the raw value is 0, else the raw value. */
    function GetAudioBufferSize(): (size: UInt32)
      reads this
      ensures GetAudioBufferSizeRaw() == 0 ==> size == GetAudioBufferSizeDefault()
      ensures GetAudioBufferSizeRaw() != 0 ==> size == GetAudioBufferSizeRaw()
    {
      var raw := GetAudioBufferSizeRaw();
      if raw == 0 then GetAudioBufferSizeDefault() else raw
    }

    method SetAudioBufferSize(size: UInt32)
      modifies this`settings
      ensures settings == old(settings)[AudioBufferSizeKey := UIntValue(size)]
      ensures GetAudioBufferSizeRaw() == size
      ensures GetAudioBufferSize() == if size == 0 then audioBufferSizeDefault else size
      ensures AgreeExcept(settings, old(settings), AudioBufferSizeKey)
    {
      settings := settings[AudioBufferSizeKey := UIntValue(size)];
    }

    // ---- Registered hosts -----------------------------------------------

    /** The registered addresses in the order the registry lists them. */
    function RegisteredMacs(): (macs: seq<HostMAC>)
      reads this
      ensures forall i, j :: 0 <= i < j < |macs| ==> macs[i].value < macs[j].value
      ensures forall mac :: mac in macs <==> mac in registeredHosts
      ensures |macs| == |registeredHosts|
    {
      AscendingMacs(registeredHosts.Keys)
    }

    function GetRegisteredHosts(): (hosts: seq<RegisteredHost>)
      reads this
      ensures |hosts| == |registeredHosts|
      ensures forall i :: 0 <= i < |hosts| ==> hosts[i] == registeredHosts[RegisteredMacs()[i]]
    {
      KeyOrder.ValuesAlong(registeredHosts, RegisteredMacs())
    }

    /** Every registered host is listed, and only registered hosts are. */
    lemma RegisteredHostsListed()
      ensures forall mac :: mac in registeredHosts ==> registeredHosts[mac] in GetRegisteredHosts()
      ensures forall h :: h in GetRegisteredHosts() ==> exists mac :: mac in registeredHosts && registeredHosts[mac] == h
    {
      KeyOrder.ListingCoversMap(registeredHosts, RegisteredMacs(), GetRegisteredHosts());
    }

    function GetRegisteredHostRegistered(mac: HostMAC): (registered: bool)
      reads this
      ensures registered <==> mac in registeredHosts
    {
      mac in registeredHosts
    }

    function GetRegisteredHost(mac: HostMAC): (host: RegisteredHost)
      reads this
      requires mac in registeredHosts
      ensures host == registeredHosts[mac]
      ensures Valid() ==> host.serverMac == mac
    {
      registeredHosts[mac]
    }

    /** Files `host` under its own address, replacing any entry there. */
    method AddRegisteredHost(host: RegisteredHost)
      requires Valid()
      modifies this`registeredHosts
      ensures Valid()
      ensures registeredHosts == old(registeredHosts)[host.serverMac := host]
      ensures GetRegisteredHostRegistered(host.serverMac)
      ensures GetRegisteredHost(host.serverMac) == host
    {
      registeredHosts := registeredHosts[host.serverMac := host];
    }

    /** Drops the entry for `mac`; nothing happens when there is none. */
    method RemoveRegisteredHost(mac: HostMAC)
      requires Valid()
      modifies this`registeredHosts
      ensures Valid()
      ensures registeredHosts == old(registeredHosts) - {mac}
      ensures !GetRegisteredHostRegistered(mac)
    {
      registeredHosts := registeredHosts - {mac};
    }

    // ---- Manual hosts ---------------------------------------------------

    /** The manual host ids in the order the registry lists them. */
    function ManualHostIds(): (ids: seq<int>)
      reads this
      ensures KeyOrder.StrictlyIncreasing(ids)
      ensures forall id :: id in ids <==> id in manualHosts
      ensures |ids| == |manualHosts|
    {
      KeyOrder.Ascending(manualHosts.Keys)
    }

    function GetManualHosts(): (hosts: seq<ManualHost>)
      reads this
      ensures |hosts| == |manualHosts|
      ensures forall i :: 0 <= i < |hosts| ==> hosts[i] == manualHosts[ManualHostIds()[i]]
    {
      KeyOrder.ValuesAlong(manualHosts, ManualHostIds())
    }

    /** Every manual host is listed, and only manual hosts are. */
    lemma ManualHostsListed()
      ensures forall id :: id in manualHosts ==> manualHosts[id] in GetManualHosts()
      ensures forall h :: h in GetManualHosts() ==> exists id :: id in manualHosts && manualHosts[id] == h
    {
      KeyOrder.ListingCoversMap(manualHosts, ManualHostIds(), GetManualHosts());
    }

    function GetManualHostExists(id: int): (exists_: bool)
      reads this
      ensures exists_ <==> id in manualHosts
    {
      id in manualHosts
    }

    function GetManualHost(id: int): (host: ManualHost)
      reads this
      requires id in manualHosts
      ensures host == manualHosts[id]
      ensures Valid() ==> host.id == id
    {
      manualHosts[id]
    }

    /**
     * Stores `host` and returns its id. A host without an id (a negative one)
     * gets the next id from the counter, which no entry has ever had; a host
     * with an id replaces the entry under that id.
     */
    method SetManualHost(host: ManualHost) returns (id: int)
      requires Valid()
      modifies this`manualHosts, this`manualHostsIdNext, this`issuedIds
      ensures Valid()
      ensures host.id < 0 ==> id == old(manualHostsIdNext) && manualHostsIdNext == id + 1
      ensures host.id >= 0 ==> id == host.id && manualHostsIdNext == Max(old(manualHostsIdNext), id + 1)
      ensures host.id < 0 ==> id !in old(issuedIds)
      ensures issuedIds == old(issuedIds) + {id}
      ensures manualHosts == old(manualHosts)[id := host.(id := id)]
      ensures GetManualHostExists(id) && GetManualHost(id) == host.(id := id)
    {
      if host.id < 0 {
        id := manualHostsIdNext;
        manualHostsIdNext := manualHostsIdNext + 1;
      } else {
        id := host.id;
        manualHostsIdNext := Max(manualHostsIdNext, id + 1);
      }
      issuedIds := issuedIds + {id};
      manualHosts := manualHosts[id := host.(id := id)];
    }

    /** Drops the entry for `id`; the id is not handed out again. */
    method RemoveManualHost(id: int)
      requires Valid()
      modifies this`manualHosts
      ensures Valid()
      ensures manualHosts == old(manualHosts) - {id}
      ensures !GetManualHostExists(id)
    {
      manualHosts := manualHosts - {id};
    }
  }
}
