# EasyTier for iOS — a Dafny model of its core

EasyTier for iOS is a SwiftUI app plus a Network Extension. The extension runs
the EasyTier mesh-VPN engine, a Rust library reached through a C FFI. This
project models the Swift logic around that engine and proves properties of it.

- **Profile store.** Profiles are TOML files named by a sanitising rule. The
  index lists the `.toml` files of the profiles directory, sorted by name.
  Rename, delete and save change that directory.
- **Packet tunnel provider.** It turns a CIDR prefix into a dotted subnet mask
  and builds the tunnel settings from the start options. It also sequences
  `startTunnel`: each early exit reports its error to the host app and
  completes the call once. The completion carries that error, except that an
  engine failure without a message completes as a success (see "## Findings").
  Stop, engine-stop and app-message handling are modelled too.
- **Tunnel helper.** It holds the tunnel IP state read back from the applied
  settings. As a fallback it searches the open file descriptors for the utun
  control socket.
- **Network models.** The `NetworkingMethod` raw values, the defaults of a
  port forward and of a new network, and the dotted-quad parser of the
  32-bit `Ipv4Addr`.
- **Dashboard view model.** The network list and its selection.
- **Network editor.** The newline codec behind every multi-line list field,
  the `bound` views of optional text and numbers, and adding and deleting
  port forwards.

Modules follow the source files:

- `ProfileStore`, `PacketTunnel`, `TunnelHelper`, `NetworkModels`,
  `Dashboard` and `NetworkEdit` each model one source file.
- `Wrappers` (an `Option` type), `Strings` and `Octets` are shared helpers.
  - `Strings` covers Swift's `split`, `components(separatedBy:)`,
    `joined(separator:)`, `trimmingCharacters(in:)`, integer rendering and
    `Int(_:)` parsing.
  - `Octets` covers the four bytes of a 32-bit address.
- `MaskRoundTrip` proves that the mask the provider writes parses back
  through `Ipv4Addr.fromString`.

The objects the source updates in place are classes with `modifies` frames:

- `ProfileStore.ProfileDirectory`: the directory as a map from file name to
  contents.
- `PacketTunnel.TunnelProvider`: the shared error slot, the posted
  notifications and the completions received.
- `Dashboard.DashboardViewModel`.
- `NetworkEdit.NetworkEditViewModel`.

The index scan and the descriptor scan are loop methods, each proved against
a recursive specification function.

Behaviours of the code a reader may not expect:

- Sanitising a file name is not idempotent. Trimming happens before cutting,
  so `"/ b"` gives `" b"`, and sanitising that again gives `"b"`.
- Renaming onto an existing profile's file name replaces that file. It is not
  refused.
- When the engine-stop callback cannot fetch the latest error, it only logs.
  No "Unknown" error is reported.
- A `config` option that is missing, or is not a string, fails with the
  message `config is empty`.

## Model

| member | source | states |
|---|---|---|
| ProfileStore.SanitizedFileName | EasyTier/Utils/ProfileStore.swift:143-152 | a name that is blank after trimming gives the fallback, and a non-empty fallback makes the result non-empty; the full behaviour is stated by the four rows below |
| ProfileStore.SanitizedFallback | EasyTier/Utils/ProfileStore.swift:143-152 | a name that is empty, blank, or only `/` and `:` after trimming gives the fallback |
| ProfileStore.SanitizedShape | EasyTier/Utils/ProfileStore.swift:143-152 | any other name gives the non-empty pieces joined by `_`; the result is non-empty and has no `/` or `:`; apart from `_`, it keeps exactly the trimmed input's other characters, in order |
| ProfileStore.SanitizedCollapsesSeparators | EasyTier/Utils/ProfileStore.swift:148-150 | runs of `/` and `:` collapse: without a `_` of its own, the result has no doubled `_` and no `_` at either end |
| ProfileStore.SanitizingTwiceDiffers | EasyTier/Utils/ProfileStore.swift:143-152 | sanitising is not idempotent: `"/ b"` gives `" b"`, and sanitising again gives `"b"` |
| ProfileStore.ProfileFileName | EasyTier/Utils/ProfileStore.swift:139-140 | a profile's file name always ends in `.toml` |
| ProfileStore.TomlNameParts | EasyTier/Utils/ProfileStore.swift:58-59 | `<stem>.toml` has path extension `toml` and gives back the stem when the extension is deleted |
| ProfileStore.SavedProfileListing | EasyTier/Utils/ProfileStore.swift:55-59 | a saved profile's file has the sanitised name as its stem; the listing keeps it exactly when that name does not start with `.` (hidden files are skipped) |
| ProfileStore.ProfileEntries | EasyTier/Utils/ProfileStore.swift:57-61 | an entry is in the index iff its file is in the listing, is not hidden, has extension `toml` in any case, and its name is the file's stem |
| ProfileStore.SavedProfileIsIndexed | EasyTier/Utils/ProfileStore.swift:57-61 | a listing that holds a profile's file indexes it under its sanitised name iff that name is not hidden |
| ProfileStore.InsertByName | EasyTier/Utils/ProfileStore.swift:62 | inserting adds exactly one entry to the multiset of entries |
| ProfileStore.InsertKeepsSorted | EasyTier/Utils/ProfileStore.swift:62 | inserting into a sequence sorted by a strict weak order keeps it sorted |
| ProfileStore.SortByName | EasyTier/Utils/ProfileStore.swift:62 | the result is sorted by configuration name and is a permutation of the input |
| ProfileStore.MovedEntry | EasyTier/Utils/ProfileStore.swift:103-106 | after the move the source is gone, the target holds the source's contents, and every other file is unchanged |
| ProfileStore.ProfileDirectory.LoadIndex | EasyTier/Utils/ProfileStore.swift:47-63 | a missing directory gives an empty index, which is also the (empty) listing's entries; a failing listing of an existing directory is an error; otherwise the `.toml` entries of the listing, sorted and as a permutation; every entry names a profile file in the directory |
| ProfileStore.ProfileDirectory.LoadIndexOrEmpty | EasyTier/Utils/ProfileStore.swift:38-45 | any failure gives an empty index; otherwise the sorted permutation of the listing's entries |
| ProfileStore.ProfileDirectory.FileURL | EasyTier/Utils/ProfileStore.swift:130-141 | the files are unchanged; a missing directory whose creation fails throws and stays missing; otherwise the directory exists and the name is the sanitised name (with the UUID as fallback) plus `.toml` |
| ProfileStore.ProfileDirectory.RenameProfileFile | EasyTier/Utils/ProfileStore.swift:96-108 | a failed directory creation throws and changes nothing; a target equal to the source changes nothing; an existing target is removed first, and a failed removal throws with every file kept; then the source is moved onto the target; a missing source or a failed move throws after the target is removed |
| ProfileStore.ProfileDirectory.DeleteProfile | EasyTier/Utils/ProfileStore.swift:110-114 | a missing file is not an error and changes nothing; otherwise the file is gone and every other file unchanged, unless `removeItem` fails, which throws and keeps every file |
| ProfileStore.ProfileDirectory.Save | EasyTier/Utils/ProfileStore.swift:80-94 | an existing file is opened and overwritten, a new one created; a failed encode, open or write leaves the directory unchanged; success stores exactly the encoded text |
| Strings.TrimLeading | EasyTier/Utils/ProfileStore.swift:144 | the result is a suffix of the input; every character cut is whitespace, and the result does not start with whitespace |
| Strings.TrimTrailing | EasyTier/Utils/ProfileStore.swift:144 | the result is a prefix of the input; every character cut is whitespace, and the result does not end with whitespace |
| Strings.SplitJoin | EasyTier/Views/NetworkEditView.swift:308-313 | splitting the joined text gives back pieces that are non-empty and free of separators |
| Strings.SplitEmptyIff | EasyTier/Utils/ProfileStore.swift:149-151 | a split leaves no pieces iff every character is a separator |
| Strings.ParseDec | EasyTierNetworkExtension/PacketTunnelProvider.swift:131 | an in-range number, rendered in decimal, parses back to itself |
| PacketTunnel.SubnetMask | EasyTierNetworkExtension/PacketTunnelProvider.swift:116 | bit `i` of the mask is set iff `i >= 32 - cidr`, so the mask is `cidr` leading ones; it is 0 for a zero prefix |
| PacketTunnel.CidrToSubnetMask | EasyTierNetworkExtension/PacketTunnelProvider.swift:113-124 | nil iff the prefix is outside 0..32; otherwise the four bytes of the mask, most significant first, in dotted decimal |
| PacketTunnel.CommonMasks | EasyTierNetworkExtension/PacketTunnelProvider.swift:113-124 | prefixes 0, 24 and 32 give `0.0.0.0`, `255.255.255.0` and `255.255.255.255` |
| PacketTunnel.ParsedPrefix | EasyTierNetworkExtension/PacketTunnelProvider.swift:129-131 | an option parses iff it is a string that splits at `/` (empty pieces dropped) into exactly two pieces whose second parses as an `Int`; the address is then the first piece, non-empty and without `/`, and the prefix the parse of the second |
| PacketTunnel.AddressPrefixRoundTrip | EasyTierNetworkExtension/PacketTunnelProvider.swift:129-131 | `<address>/<prefix>` parses back to that address and prefix |
| PacketTunnel.Ipv4For | EasyTierNetworkExtension/PacketTunnelProvider.swift:129-138 | IPv4 settings exist iff the option parses with a prefix in 0..32; they hold that one address and its mask |
| PacketTunnel.Ipv6For | EasyTierNetworkExtension/PacketTunnelProvider.swift:139-147 | IPv6 settings exist iff the option parses; they hold that one address and the prefix, unchecked |
| PacketTunnel.MtuFor | EasyTierNetworkExtension/PacketTunnelProvider.swift:148-150 | the MTU is set iff the `mtu` option is a number, and then it is that number |
| PacketTunnel.Ipv4FromOption | EasyTierNetworkExtension/PacketTunnelProvider.swift:129-138 | a well-formed IPv4 option gives its address and mask; a prefix above 32 gives no IPv4 settings |
| PacketTunnel.Ipv6FromOption | EasyTierNetworkExtension/PacketTunnelProvider.swift:139-147 | a well-formed IPv6 option gives its address and prefix, whatever the prefix |
| PacketTunnel.PrepareSettings | EasyTierNetworkExtension/PacketTunnelProvider.swift:126-153 | the remote address is `0.0.0.0`; IPv4 and IPv6 settings exist only for parsed options; `Ipv4For`, `Ipv6For`, `MtuFor` and the row below state each part |
| PacketTunnel.SettingsIndependent | EasyTierNetworkExtension/PacketTunnelProvider.swift:126-153 | changing one option leaves the IPv4, IPv6 and MTU settings the other options give unchanged |
| PacketTunnel.ConfigOption | EasyTierNetworkExtension/PacketTunnelProvider.swift:165 | a configuration exists iff `config` is a string option, and it is that string |
| PacketTunnel.TunFd | EasyTierNetworkExtension/PacketTunnelProvider.swift:205 | the packet flow's descriptor is preferred, the scanned one used without it; there is none only when both sources have none |
| PacketTunnel.EngineFailureMessage | EasyTierNetworkExtension/PacketTunnelProvider.swift:179 | the host app is told the engine's message, or `Unknown` when there is none |
| PacketTunnel.StartError | EasyTierNetworkExtension/PacketTunnelProvider.swift:155-225 | no error only when options and a `config` string are given, the engine runs, the settings apply and a descriptor is found; `StartErrorIff` states the converse and the messages |
| PacketTunnel.StartErrorIff | EasyTierNetworkExtension/PacketTunnelProvider.swift:155-225 | the error a start runs into (the one the host app is notified of) is none iff options and a `config` string are given, the engine runs, the settings apply and a descriptor is found; missing options and a missing config give their fixed messages; an engine failure gives its message or `Unknown` |
| PacketTunnel.StartCompletion | EasyTierNetworkExtension/PacketTunnelProvider.swift:155-225 | as written, a success completion needs options and a `config` string, and a start that reaches the descriptor step without one completes with an error; `StartSucceedsIff` states the rest |
| PacketTunnel.StartSucceedsIff | EasyTierNetworkExtension/PacketTunnelProvider.swift:155-225 | as written, a start completes as a success iff options and a `config` string are given and either every later step succeeds or the engine fails without a message; missing options and a missing config complete with their fixed messages; an engine failure completes with its message, possibly nil |
| PacketTunnel.CompletionDivergesOnlyWithoutMessage | EasyTierNetworkExtension/PacketTunnelProvider.swift:176-182 | the completion equals the notified error in every case except an engine failure without a message, where the host app hears `Unknown` and the start completes as a success |
| PacketTunnel.EngineFailureReportedAsSuccess | EasyTierNetworkExtension/PacketTunnelProvider.swift:176-182 | a fresh provider whose engine fails without a message posts one error notification, stores `Unknown` in the shared slot, and completes with nil |
| PacketTunnel.TunnelProvider.NotifyHostAppError | EasyTierNetworkExtension/PacketTunnelProvider.swift:103-111 | the shared error slot is overwritten (when the shared defaults exist); one error notification is posted; nothing else changes |
| PacketTunnel.TunnelProvider.StartTunnel | EasyTierNetworkExtension/PacketTunnelProvider.swift:155-225 | the provider becomes current; exactly one completion is added, the as-written one; a notification is posted iff the start ran into an error, and the shared slot then holds that error when the shared defaults exist and is untouched otherwise; the engine config, applied settings and handed-off descriptor are as far as the start got |
| PacketTunnel.TunnelProvider.FinishTunFdHandoff | EasyTierNetworkExtension/PacketTunnelProvider.swift:212-221 | a successful background `set_tun_fd` adds nothing; a failed one notifies the host app with the message or `Unknown` (the shared slot changes only when the shared defaults exist) and adds a second completion with the extracted message, nil when there is none |
| PacketTunnel.TunnelProvider.EngineStopCallback | EasyTierNetworkExtension/PacketTunnelProvider.swift:184-186 | the engine-stop callback reaches `handleRustStop` only while the provider is current; after a stop it changes nothing |
| PacketTunnel.TunnelProvider.HandleEngineStop | EasyTierNetworkExtension/PacketTunnelProvider.swift:81-96 | when the engine reports its latest error, the host app is notified and the tunnel cancelled with that message; otherwise nothing observable changes |
| PacketTunnel.TunnelProvider.StopTunnel | EasyTierNetworkExtension/PacketTunnelProvider.swift:227-235 | whatever the engine stop returns, the provider stops being current and the stop completes once |
| PacketTunnel.AppMessageReply | EasyTierNetworkExtension/PacketTunnelProvider.swift:237-250 | without a handler, no reply; with one, the running info iff the engine returns it, else a nil reply |
| TunnelHelper.EmptyState | EasyTierNetworkExtension/TunnelHelper.swift:24-33 | the all-nil state is empty |
| TunnelHelper.FromSettings | EasyTierNetworkExtension/TunnelHelper.swift:14-22 | an IPv4 or IPv6 address is read back only from settings holding that family; the three rows below state the values |
| TunnelHelper.NoSettingsIsEmptyState | EasyTierNetworkExtension/TunnelHelper.swift:14-29 | reading back no settings gives the same state as `init()` |
| TunnelHelper.PreparedState | EasyTierNetworkExtension/TunnelHelper.swift:14-33 | the state read back from prepared settings is empty iff neither the IPv4 nor the IPv6 option was usable; it carries the prepared address, mask and prefix |
| TunnelHelper.TypicalIpv4State | EasyTierNetworkExtension/TunnelHelper.swift:14-22 | `10.0.0.5/24` reads back as address `10.0.0.5` with mask `255.255.255.0` and no IPv6 |
| TunnelHelper.ScanFrom | EasyTierNetworkExtension/TunnelHelper.swift:44-67 | a found descriptor is in range and is an `AF_SYSTEM` peer |
| TunnelHelper.TunnelFileDescriptor | EasyTierNetworkExtension/TunnelHelper.swift:36-68 | the loop over descriptors 0..1024 returns what the recursive search specifies, and any descriptor it returns is in range |
| TunnelHelper.FirstMatch | EasyTierNetworkExtension/TunnelHelper.swift:44-67 | reference definition: the first descriptor connected to control `k`, with none before it; none when no descriptor is |
| TunnelHelper.ResolvedScanIsFirstMatch | EasyTierNetworkExtension/TunnelHelper.swift:56-65 | once the control id is resolved, the search is the first match for that id |
| TunnelHelper.ScanIsFirstMatch | EasyTierNetworkExtension/TunnelHelper.swift:36-68 | when `ioctl` reports the same control id on every `AF_SYSTEM` descriptor, the search returns the first descriptor connected to that control, or nil |
| TunnelHelper.FailedIoctlSkips | EasyTierNetworkExtension/TunnelHelper.swift:56-60 | a failing `ioctl` skips its descriptor and retries resolution on the next one |
| NetworkModels.NetworkingMethod.RawValue | EasyTier/Models/NetworkModels.swift:3-8 | the raw values lie in 0..2 |
| NetworkModels.NetworkingMethodFromRawValue | EasyTier/Models/NetworkModels.swift:3-8 | a raw value decodes iff it is 0, 1 or 2 |
| NetworkModels.NetworkingMethodRawValues | EasyTier/Models/NetworkModels.swift:3-8 | each case decodes back from its raw value, and a decoded raw value encodes back to itself; the values are 0, 1, 2 |
| NetworkModels.DefaultPortForward | EasyTier/Models/NetworkModels.swift:10-21 | a new forward has the fresh id, empty addresses, ports 0 and protocol `tcp` |
| NetworkModels.DefaultConfig | EasyTier/Models/NetworkModels.swift:90-141 | a new network carries the fresh instance id; `DefaultConfigValues` states every other default |
| NetworkModels.DefaultConfigValues | EasyTier/Models/NetworkModels.swift:90-141 | a new network uses DHCP on `10.144.144.0/24` through the public server; it has no host name, MTU, peers or forwards; every switch is off; it has the three default listeners and ports 1080 and 22022 |
| NetworkModels.ParsedPieces | EasyTier/Models/NetworkModels.swift:257 | only pieces that parse as `UInt32` are kept, so there are no more values than pieces and each value fits in 32 bits |
| NetworkModels.ParsedPiece | EasyTier/Models/NetworkModels.swift:257 | a single piece gives its `UInt32` value when it parses and nothing otherwise |
| NetworkModels.ParsedPiecesAppend | EasyTier/Models/NetworkModels.swift:257 | the values of concatenated pieces are the values of each part in order, so an unparseable piece is dropped without disturbing the others |
| NetworkModels.Ipv4FromString | EasyTier/Models/NetworkModels.swift:256-261 | an address exists iff exactly four pieces parse |
| NetworkModels.DottedPieces | EasyTier/Models/NetworkModels.swift:257 | `UInt32` values written in decimal and joined by dots parse back piece by piece |
| NetworkModels.OctetsRoundTrip | EasyTier/Models/NetworkModels.swift:256-261 | four octets 0..255, dotted, parse back to the address whose bytes they are, most significant first |
| NetworkModels.AddressRoundTrip | EasyTier/Models/NetworkModels.swift:256-261 | any address written as its four bytes parses back to itself |
| NetworkModels.LenientParses | EasyTier/Models/NetworkModels.swift:256-261 | unparseable and empty pieces are dropped, not rejected; a last piece of 256 carries into the byte above; three numbers are no address |
| Octets.CombineOctets | EasyTier/Models/NetworkModels.swift:259 | bytes 0..255 shifted and OR-ed read back as the same bytes |
| Octets.RecombineOctets | EasyTier/Models/NetworkModels.swift:259 | an address is the combination of its own four bytes |
| Octets.CarryIntoNextByte | EasyTier/Models/NetworkModels.swift:259 | the pieces are OR-ed without a range check: `0.0.0.256` and `0.0.1.0` give the same number |
| MaskRoundTrip.MaskParsesBack | EasyTierNetworkExtension/PacketTunnelProvider.swift:113-124 | the dotted mask of a prefix 0..32 parses back, through `Ipv4Addr.fromString`, to the mask with that many leading one bits |
| Dashboard.FirstWithId | EasyTier/ViewModels/DashboardViewModel.swift:19-21 | the selected network is the first item with the selected id; there is none when nothing is selected or no item has the id |
| Dashboard.DisplayName | EasyTier/ViewModels/DashboardViewModel.swift:24-27 | an empty name becomes `New Network`; any other name is kept; the result is never empty |
| Dashboard.DashboardViewModel.SelectedNetwork | EasyTier/ViewModels/DashboardViewModel.swift:19-21 | the selected network is one of the networks and carries the selected id; `FirstWithId` states that it is the first such |
| Dashboard.DashboardViewModel.constructor | EasyTier/ViewModels/DashboardViewModel.swift:11-17 | two sample networks `Test` and `Test X` with distinct ids, nothing selected, neither connected nor pending |
| Dashboard.DashboardViewModel.NewNetwork | EasyTier/ViewModels/DashboardViewModel.swift:23-31 | appends one item under the fresh id and selects it, so it becomes the selected network; ids stay unique |
| Dashboard.DashboardViewModel.DeleteNetwork | EasyTier/ViewModels/DashboardViewModel.swift:33-37 | without a selection nothing changes; otherwise every item with the selected id is removed and the first remaining item (or none) is selected; ids stay unique |
| Dashboard.SelectsAppended | EasyTier/ViewModels/DashboardViewModel.swift:28-30 | an item appended under a fresh id is the one its id selects |
| Dashboard.FilterKeepsUniqueIds | EasyTier/ViewModels/DashboardViewModel.swift:35 | removing items keeps ids unique |
| Dashboard.DeleteKeepsOthersInOrder | EasyTier/ViewModels/DashboardViewModel.swift:35 | removal distributes over concatenation; it keeps exactly the items with another id, in order; a list without the id is unchanged |
| NetworkEdit.ListFromText | EasyTier/Views/NetworkEditView.swift:308-313 | every stored item is non-empty and holds no newline |
| NetworkEdit.ListRoundTrip | EasyTier/Views/NetworkEditView.swift:308-313 | a list of non-empty single-line items, shown and stored back, is unchanged |
| NetworkEdit.ListNormalisationIdempotent | EasyTier/Views/NetworkEditView.swift:308-313 | storing normalises once: showing and storing again changes nothing |
| NetworkEdit.ListFieldReadsBack | EasyTier/Views/NetworkEditView.swift:121-215 | a written list field reads back what was written; writing back what is there changes nothing |
| NetworkEdit.ListFieldFrames | EasyTier/Views/NetworkEditView.swift:121-215 | writing one list field leaves the other lists, the forwards, the host name and the MTU unchanged |
| NetworkEdit.BoundStringLaws | EasyTier/Views/NetworkEditView.swift:328-333 | typed text is what is shown; a stored value reads and writes back to itself, except that an empty string becomes nil |
| NetworkEdit.BoundIntLaws | EasyTier/Views/NetworkEditView.swift:335-340 | a typed number is what is shown; a read and write turns nil into 0 |
| NetworkEdit.DeleteForwardKeepsOthersInOrder | EasyTier/Views/NetworkEditView.swift:247-250 | deleting keeps exactly the forwards with another id, in order, and distributes over concatenation |
| NetworkEdit.NetworkEditViewModel.constructor | EasyTier/ViewModels/NetworkEditViewModel.swift:8-10 | the given configuration, or the defaults under a fresh instance id |
| NetworkEdit.NetworkEditViewModel.EditList | EasyTier/Views/NetworkEditView.swift:308-313 | only the edited list changes, and it becomes the text's non-empty lines; storing back the text of a well-formed list changes nothing |
| NetworkEdit.NetworkEditViewModel.EditHostname | EasyTier/Views/NetworkEditView.swift:117 | only the host name changes; it reads back as the typed text |
| NetworkEdit.NetworkEditViewModel.EditMtu | EasyTier/Views/NetworkEditView.swift:167 | only the MTU changes; it reads back as the typed number |
| NetworkEdit.NetworkEditViewModel.DeletePortForward | EasyTier/Views/NetworkEditView.swift:247-250 | only the forwards change: exactly those with the id are removed |
| NetworkEdit.NetworkEditViewModel.AddPortForward | EasyTier/Views/NetworkEditView.swift:288 | one default forward with the fresh id is appended; nothing else changes |

## Left out

- The engine and the OS arrive as parameters. The FFI calls (`run_network_instance`, `set_tun_fd`, `get_latest_error_msg`, `get_running_info`, `stop_network_instance`, `register_stop_callback`, `init_logger`, `free_string`) are represented by their results. So are `getpeername`, `ioctl`, `setTunnelNetworkSettings` and the packet flow's descriptor.
- Logging and `initRustLogger` are not modelled; they change no modelled state.
- Registering the engine-stop callback only logs its outcome, so it is not modelled.
- Concurrency is not modelled.
  - The background `set_tun_fd` after a successful start is a separate step, `PacketTunnel.TunnelProvider.FinishTunFdHandoff`.
  - The main-queue dispatch in `handleRustStop` runs inline.
  - The weak static `current` is a flag of the one modelled provider. `PacketTunnel.TunnelProvider.EngineStopCallback` consults it. Another provider taking `current` over is not modelled.
- `PacketTunnel.TunnelProvider.HandleEngineStop` records the cancel error. It does not model `cancelTunnelWithError` itself.
- `PacketTunnel.TunnelProvider.StartTunnel` runs the settings callback inline. A provider released before the callback (the `self?` paths) is not modelled.
- The duplicate descriptor scan in EasyTierNetworkExtension/PacketTunnelProvider.swift:14-45 is the same loop as `tunnelFileDescriptor()` in TunnelHelper.swift. It is modelled once, as `TunnelHelper.TunnelFileDescriptor`.
- The `ctl_info` name lookup is not modelled. A descriptor's control id comes from a table, and `ioctl` reports an id or fails.
- UIDocument I/O, TOML encoding and decoding, and `loadProfile` are not modelled. `ProfileStore.ProfileDirectory.Save` takes the encoded text, or an encoding failure, and the outcomes of opening and saving the document.
- The choice between the iCloud and the local documents directory is not modelled, nor URL resolution errors. The directory is one object; a failure to resolve it is a failing listing.
- `createDirectory`, `removeItem` and `moveItem` arrive as their outcomes, success or failure. The error thrown is not modelled, and a failed call is taken to change no file.
- ProfileStore.ProfileDirectory.LoadIndex: `localizedStandardCompare` is not modelled. The collation order is a parameter, required to be a strict weak order. The result is only stated to be sorted and a permutation, not the exact order Swift's sort gives among names that compare equal.
- ProfileStore.IsProfileFile: lower-casing covers ASCII letters only. Path extensions follow `URL`'s rule only for plain file names: the last `.` after a non-empty stem, before a non-empty extension.
- Strings are sequences of Unicode scalars, not Swift grapheme clusters.
  - `Strings.Trim` trims single scalars of the Unicode White_Space class. A cluster that starts with a space and carries a combining mark is trimmed only in part, unlike in Swift.
  - `NetworkEdit.ListFromText` splits at line feed, vertical tab, form feed, carriage return, U+0085, U+2028 and U+2029. A CR LF pair, which Swift treats as one character, gives no empty line in either model.
- The fresh values are parameters, and uniqueness is a precondition where it matters. This covers `UUID()` in new networks, new forwards, default configurations and fallback file names.
- `PacketTunnel.ParsedPrefix`: the IPv6 prefix is kept as an unbounded number. `NSNumber` wrapping is not modelled.
- The prefix parse accepts Swift `Int`'s 64-bit range.
- `fetchRunningInfo`, the JSON running-info types and every floating-point field are not modelled.
- The SwiftUI views, widgets, intents, sleep/wake handlers and `DNObserver` are not modelled.
- The `NetworkConfig` to/from `NetworkProfile` conversion is not modelled. It lives outside the modelled files; `NetworkConfig`'s fields are modelled directly.
- The `Int?.bound` editor passes through `NumberFormatter`. Parsing the typed text is not modelled; the typed value arrives as an integer.

## Findings

| source | as written | input that shows it | evidently intended | confidence | as-written member | corrected member |
|---|---|---|---|---|---|---|
| EasyTierNetworkExtension/PacketTunnelProvider.swift:177-180 | when `run_network_instance` fails, the completion handler gets the extracted message, which is nil when the engine left none; a nil error tells the system the tunnel started; the background `set_tun_fd` failure at line 219 does the same | `run_network_instance` returns non-zero with a null error pointer | the start fails with the error the host app is notified with, `Unknown` here (line 179): `PacketTunnel.StartError`, whose iff lemma is the corrected member; `PacketTunnel.TunnelProvider.StartTunnel` keeps the as-written completion and uses `StartError` for what it notifies | medium; not executed | PacketTunnel.EngineFailureReportedAsSuccess | PacketTunnel.StartErrorIff |
