# Settings store of the Chiaki remote-play client, in Dafny

This project models the `Settings` class of the Chiaki GUI (`gui/include/settings.h`):

- the preference store, a string-keyed table in which each getter returns the
  stored value or a hard-coded default, and each setter overwrites exactly one key;
- the two host registries: paired consoles keyed by hardware address
  (`registered_hosts`), and manually entered consoles keyed by an integer id
  drawn from the counter `manual_hosts_id_next` (`manual_hosts`);
- the raw and effective audio buffer size rule, and the frame-rate preference
  whose code 0 means "automatic";
- the eight `ControllerButtonExt` pseudo-buttons, single-bit flags from `1 << 18`
  to `1 << 25`, placed above the native button identifiers.

Files:

- `button_ext.dfy`, module `ButtonExt`: the pseudo-button constants and their bit lemmas.
- `preferences.dfy`, module `Preferences`: the key-value backend as a `map<string, Value>`,
  with default-on-missing reads, typed reads and write/read lemmas.
- `key_order.dfy`, module `KeyOrder`: listing a map's keys in ascending order. A Qt
  `QMap` lists its `values()` that way.
- `hosts.dfy`, module `Hosts`: `HostMAC`, `RegisteredHost`, `ManualHost`.
- `settings.dfy`, module `ChiakiSettings`: class `Settings`. It has the backend map,
  both registries and the id counter as mutable fields. The getters are functions
  that read them. The setters and registry mutators are methods with `modifies`
  clauses.

Modelling choices:

- The backend holds typed values (`BoolValue`, `StringValue`, `UIntValue`).
  Reading a value of the wrong kind gives `false`, `""` or `0`.
  Every setter writes its own kind, so a value written through the class always
  reads back exactly.
- `HostMAC` holds the 6-byte address as one big-endian 48-bit number, and the
  registered hosts are listed in ascending order of that number. `host.h`, which
  defines `HostMAC` and its ordering, is not part of this model.
- The header declares `GetFPS`, `SetFPS`, `GetAudioBufferSizeDefault`,
  `GetAudioBufferSizeRaw`, `SetAudioBufferSize`, `AddRegisteredHost`,
  `RemoveRegisteredHost`, `SetManualHost` and `RemoveManualHost`, but their bodies
  are in a `settings.cpp` that is not part of this model. They are modelled as
  assumptions, with the contracts their names and doc comments commit to:
  write one key, or insert or remove by key. The store keys `settings/fps` and
  `settings/audio_buffer_size` are this model's own names. The audio buffer
  default and the frame-rate default are constructor parameters, because the
  header fixes neither value.
- `SetManualHost` gives a host with a negative id the next counter value.
  A host with an explicit id replaces the entry under that id, and the counter
  is raised past that id. This is the model's choice: with it, an id is never
  handed out twice.
- The constructor takes the backend's initial contents and starts with empty
  registries. Loading the registries from the backend is left out.
- `GetRegisteredHost` and `GetManualHost` index a `QMap` directly, so the model
  requires the key to be present. `SetManualHost` accepts any explicit id, as its
  signature does.

## Model

| member | source | states |
|---|---|---|
| `ButtonExt.Value` | gui/include/settings.h:16-23 | each enumerator's value is 1 shifted left by its bit position, `1 << 18` for `ANALOG_STICK_LEFT_X_UP` up to `1 << 25` for `ANALOG_STICK_RIGHT_Y_DOWN` |
| `ButtonExt.BitIndex` | gui/include/settings.h:13-24 | each pseudo-button occupies one bit position from 18 to 25 |
| `ButtonExt.ValueIsSingleBit` | gui/include/settings.h:16-23 | each enumerator has exactly one bit set |
| `ButtonExt.ValuesDistinct` | gui/include/settings.h:16-23 | the eight enumerators are pairwise different |
| `ButtonExt.ValuesDisjoint` | gui/include/settings.h:16-23 | any two different enumerators share no bit |
| `ButtonExt.ValueAboveNativeRange` | gui/include/settings.h:15-23 | every enumerator lies between 2^18 and 2^25 and has none of the low 18 bits set |
| `ButtonExt.NoOverlapWithNative` | gui/include/settings.h:15 | no identifier below 2^18 equals a pseudo-button or shares a bit with one |
| `Preferences.ValueOr` | gui/include/settings.h:59 | a read returns the stored entry when the key is present and the caller's default otherwise |
| `Preferences.ToBool` | gui/include/settings.h:59 | a stored boolean reads back as itself |
| `Preferences.ToString` | gui/include/settings.h:69 | a stored string reads back unchanged; any other kind reads as empty |
| `Preferences.ToUInt` | gui/include/settings.h:105-110 | a stored number reads back unchanged; any other kind reads as 0 |
| `Preferences.BoolPref` | gui/include/settings.h:59 | a boolean preference is its default when the key is absent, and the stored flag when a boolean is stored |
| `Preferences.StringPref` | gui/include/settings.h:69 | a string preference is its default when the key is absent, and the stored string otherwise |
| `Preferences.UIntPref` | gui/include/settings.h:110 | a numeric preference is its default when the key is absent, and the stored number otherwise |
| `Preferences.WriteAgreesExcept` | gui/include/settings.h:60 | writing one key leaves every other key present or absent as before, with the same value |
| `Preferences.BoolPrefRoundTrip` | gui/include/settings.h:59-60 | after a boolean is written, reading that key gives it back, whatever the default |
| `Preferences.StringPrefRoundTrip` | gui/include/settings.h:69-70 | after a string is written, reading that key gives it back, whatever the default |
| `Preferences.UIntPrefRoundTrip` | gui/include/settings.h:110-116 | after a number is written, reading that key gives it back, whatever the default |
| `Preferences.ReadsDependOnlyOnOwnKey` | gui/include/settings.h:59-82 | two stores that differ only under one key give the same answer for every other key |
| `KeyOrder.LeastExists` | gui/include/settings.h:47 | every non-empty set of manual host ids has a least element |
| `KeyOrder.Least` | gui/include/settings.h:47 | the least id is in the set and below or equal to every other id |
| `KeyOrder.Ascending` | gui/include/settings.h:132 | the keys are listed strictly ascending, each key exactly once, and nothing else |
| `KeyOrder.DistinctCardinality` | gui/include/settings.h:126 | a list without repeats is as long as the set of its elements |
| `KeyOrder.ListingCoversMap` | gui/include/settings.h:126 | listing a map's values along a list of all its keys gives every stored value and only stored values |
| `Hosts.AscendingMacs` | gui/include/settings.h:46 | the registered addresses are listed strictly ascending, each exactly once, and nothing else |
| `Hosts.AscendingMacsCover` | gui/include/settings.h:46 | the ascending address list covers exactly the keys and is as long as the key set |
| `ChiakiSettings.PreferenceKeysDistinct` | gui/include/settings.h:59-82 | the modelled preferences use pairwise different keys, so no setter changes another getter |
| `ChiakiSettings.FpsSettingOf` | gui/include/settings.h:87-90 | frame-rate code 0 decodes to "automatic", and any other code to that fixed rate |
| `ChiakiSettings.FpsCodeRoundTrip` | gui/include/settings.h:87-90 | encoding a decoded frame-rate code gives the code back |
| `ChiakiSettings.FpsSettingRoundTrip` | gui/include/settings.h:87-90 | decoding an encoded frame-rate setting gives the setting back; a fixed rate is never 0 |
| `ChiakiSettings.Settings.constructor` | gui/include/settings.h:44-57 | a new store holds the given backend contents, empty registries and a zero id counter, and satisfies the invariant |
| `ChiakiSettings.Settings.GetDiscoveryEnabled` | gui/include/settings.h:59 | auto discovery is on when `settings/auto_discovery` was never written, and is the stored flag when a boolean is stored |
| `ChiakiSettings.Settings.SetDiscoveryEnabled` | gui/include/settings.h:60 | writes only `settings/auto_discovery`, leaves every other key as it was, and `GetDiscoveryEnabled` then returns the written flag |
| `ChiakiSettings.Settings.GetLogVerbose` | gui/include/settings.h:62 | verbose logging is off when `settings/log_verbose` was never written, and is the stored flag when a boolean is stored |
| `ChiakiSettings.Settings.SetLogVerbose` | gui/include/settings.h:63 | writes only `settings/log_verbose`, leaves every other key as it was, and `GetLogVerbose` then returns the written flag |
| `ChiakiSettings.Settings.GetZMQState` | gui/include/settings.h:66 | the main transport is on when `settings/zmq_on` was never written, and is the stored flag when a boolean is stored |
| `ChiakiSettings.Settings.SetZMQState` | gui/include/settings.h:67 | writes only `settings/zmq_on`, leaves every other key as it was, and `GetZMQState` then returns the written flag |
| `ChiakiSettings.Settings.GetZMQAddr` | gui/include/settings.h:69 | the main transport address is `tcp://0.0.0.0:5553` when never written, and the stored string otherwise |
| `ChiakiSettings.Settings.SetZMQAddr` | gui/include/settings.h:70 | writes only `settings/zmq_addr`, leaves every other key as it was, and `GetZMQAddr` then returns the written address |
| `ChiakiSettings.Settings.GetFrameZMQState` | gui/include/settings.h:72 | the frame transport is on when `settings/frame_zmq_on` was never written, and is the stored flag when a boolean is stored |
| `ChiakiSettings.Settings.SetFrameZMQState` | gui/include/settings.h:73 | writes only `settings/frame_zmq_on`, leaves every other key as it was, and `GetFrameZMQState` then returns the written flag |
| `ChiakiSettings.Settings.GetFrameZMQAddr` | gui/include/settings.h:75 | the frame transport address is `tcp://0.0.0.0:5555` when never written, and the stored string otherwise |
| `ChiakiSettings.Settings.SetFrameZMQAddr` | gui/include/settings.h:76 | writes only `settings/frame_zmq_addr`, leaves every other key as it was, and `GetFrameZMQAddr` then returns the written address |
| `ChiakiSettings.Settings.GetCmdZMQState` | gui/include/settings.h:78 | the command transport is on when `settings/cmd_zmq_on` was never written, and is the stored flag when a boolean is stored |
| `ChiakiSettings.Settings.SetCmdZMQState` | gui/include/settings.h:79 | writes only `settings/cmd_zmq_on`, leaves every other key as it was, and `GetCmdZMQState` then returns the written flag |
| `ChiakiSettings.Settings.GetCmdZMQAddr` | gui/include/settings.h:81 | the command transport address is `tcp://0.0.0.0:5554` when never written, and the stored string otherwise |
| `ChiakiSettings.Settings.SetCmdZMQAddr` | gui/include/settings.h:82 | writes only `settings/cmd_zmq_addr`, leaves every other key as it was, and `GetCmdZMQAddr` then returns the written address |
| `ChiakiSettings.Settings.GetFPS` | gui/include/settings.h:87-90 | the frame-rate code is the stored number, or the platform default when never written |
| `ChiakiSettings.Settings.GetFPSSetting` | gui/include/settings.h:87-90 | the frame rate reads as "automatic" exactly when `GetFPS` returns 0, and encodes back to `GetFPS` |
| `ChiakiSettings.Settings.SetFPS` | gui/include/settings.h:91 | writes only the frame-rate key, and `GetFPS` then returns the written code |
| `ChiakiSettings.Settings.GetAudioBufferSizeDefault` | gui/include/settings.h:105 | the default is the fixed platform value the store was built with |
| `ChiakiSettings.Settings.GetAudioBufferSizeRaw` | gui/include/settings.h:107-110 | the raw size is the stored number, and 0 ("automatic") when never written |
| `ChiakiSettings.Settings.GetAudioBufferSize` | gui/include/settings.h:112-115 | the effective size is the default when the raw size is 0, and the raw size otherwise |
| `ChiakiSettings.Settings.SetAudioBufferSize` | gui/include/settings.h:116 | writes only the buffer-size key; the raw size then reads back as written, and the effective size is the default for 0 and the written size otherwise |
| `ChiakiSettings.Settings.RegisteredMacs` | gui/include/settings.h:46 | the registered addresses listed in ascending order, each once, and exactly the registry's keys |
| `ChiakiSettings.Settings.GetRegisteredHosts` | gui/include/settings.h:126 | one entry per registered address, in address order, each the host stored under that address |
| `ChiakiSettings.Settings.RegisteredHostsListed` | gui/include/settings.h:126 | every registered host is in the list, and every listed host is stored under some address |
| `ChiakiSettings.Settings.GetRegisteredHostRegistered` | gui/include/settings.h:129 | true exactly when the address is a key of the registry |
| `ChiakiSettings.Settings.GetRegisteredHost` | gui/include/settings.h:130 | for a registered address, the stored host, whose own address is that key |
| `ChiakiSettings.Settings.AddRegisteredHost` | gui/include/settings.h:127 | inserts or replaces the host under its own address, leaves other entries alone, and the address is then registered |
| `ChiakiSettings.Settings.RemoveRegisteredHost` | gui/include/settings.h:128 | removes the address's entry if any, leaves other entries alone, and the address is then not registered |
| `ChiakiSettings.Settings.ManualHostIds` | gui/include/settings.h:47 | the manual host ids listed strictly ascending, each once, and exactly the registry's keys |
| `ChiakiSettings.Settings.GetManualHosts` | gui/include/settings.h:132 | one entry per manual host id, in ascending id order, each the host stored under that id |
| `ChiakiSettings.Settings.ManualHostsListed` | gui/include/settings.h:132 | every manual host is in the list, and every listed host is stored under some id |
| `ChiakiSettings.Settings.GetManualHostExists` | gui/include/settings.h:135 | true exactly when the id is a key of the manual registry |
| `ChiakiSettings.Settings.GetManualHost` | gui/include/settings.h:136 | for an existing id, the stored host, whose own id is that key |
| `ChiakiSettings.Settings.SetManualHost` | gui/include/settings.h:133 | a host without an id gets the counter's value, which was never handed out before, and the counter advances; a host with an id is stored under it; the returned id then exists and holds the host |
| `ChiakiSettings.Settings.RemoveManualHost` | gui/include/settings.h:134 | removes the id's entry if any, leaves other entries and the counter alone, and the id then does not exist |

## Left out

- The QSettings medium: disk format, durability, and the cross-type conversions of
  `toBool`, `toString` and `toUInt`. A value of the wrong kind reads as `false`, `""` or `0`.
- `ChiakiSettings.Settings.GetZMQAddr`, `GetFrameZMQAddr`, `GetCmdZMQAddr`: for a stored value of the wrong kind, the contract says nothing beyond the body, because Qt's string conversion is not modelled.
- `ButtonExt.NoOverlapWithNative`: checks only that the pseudo-buttons are at or above 2^18. The native `ChiakiControllerButton` and `ChiakiControllerAnalogButton` values are in `chiaki/session.h`, which is not part of this model.
- `ChiakiSettings.Settings.AddRegisteredHost`, `RemoveRegisteredHost`, `RemoveManualHost`, `GetFPS`, `SetFPS`, `GetAudioBufferSizeRaw`, `SetAudioBufferSize`: their bodies are in `settings.cpp`, which is not part of this model. Each contract is an assumption of insert or remove by key, or of writing one key.
- `ChiakiSettings.Settings.SetManualHost`: its body is in `settings.cpp`, which is not part of this model, and its contract rests on two assumptions beyond writing a host under its id. First, a host with an explicit id raises the counter to at least that id plus one; the header does not say this, and without it an allocated id could collide with an explicitly chosen one. Second, the counter is unbounded. `manual_hosts_id_next` is a C++ `int`, so the model does not capture what happens when the counter reaches `INT_MAX`.
- GetRegisteredHost and GetManualHost on a missing key: the result depends on Qt's const `QMap::operator[]`, so both require the key to be present.
- The Qt signals `RegisteredHostsUpdated` and `ManualHostsUpdated`: event delivery, not logic.
- `LoadRegisteredHosts`, `SaveRegisteredHosts`, `LoadManualHosts`, `SaveManualHosts`: persistence of the registries. Their bodies are not in the header.
- `GetLogLevelMask`, `GetResolution`/`SetResolution`, `GetBitrate`/`SetBitrate`, `GetCodec`/`SetCodec`, `GetDecoder`/`SetDecoder`, `GetHardwareDecoder`/`SetHardwareDecoder`, `GetAudioOutDevice`/`SetAudioOutDevice`, `GetVideoProfile`, `GetDisconnectAction`/`SetDisconnectAction`: only declared in the header. Their defaults and rules are not visible.
- `GetChiakiControllerButtonName`, `SetControllerButtonMapping`, `GetControllerMapping`, `GetControllerMappingForDecoding`: only declared. The rule for resolving decode-table conflicts is not visible.
- The frame-rate presets themselves (`ChiakiVideoFPSPreset`) are in `chiaki/session.h`, which is not part of this model. Any nonzero code counts as a fixed rate, and an unrecognised stored code is not replaced by the default.
- `QAudioDeviceInfo` and audio device names: a foreign library.
- `gui/include/jsevent.h`: a plain data struct with no operations.
- Concurrency: the store is used from one thread.
