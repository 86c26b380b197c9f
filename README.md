# MCAddonPlugin core, modelled in Dafny

MCAddonPlugin is a plugin for the AMP game-server panel. It adds these features to AMP's Minecraft module:

- **Whitelist management.** A copy of `whitelist.json` is kept in memory. Player names are turned into identifiers through the Geyser (Xbox XUID) and Mojang (Java UUID) web services. The result is written back to the file and to the server console, and pushed to the panel's UI.
- **A cache of those lookups** (`usercache.json`). It also records recent misses, so a name that just failed is not queried again.
- **Whitelist flag sync.** The plugin's "whitelist enabled" flag and the Minecraft module's own flag are kept in step.
- **Server-type selection.** Switching the server between Forge and NeoForge picks the loader build for a Minecraft version, the Java runtime that version needs and the world folder. The selection can also be queued and applied later.
- **Web methods.** These turn the panel's text arguments into a server type and a `MinecraftVersion`.

An earlier version of the server-type feature still sits at the repository root (`PluginMain.cs`, `WebMethods.cs`) and is modelled too. It differs from the current one in several places:

- it takes the last matching Java runtime rather than the first;
- it does not recognise `-1.8-` runtimes;
- it never reports an unknown version text;
- its queue add always reports success.

## How the model is built

- Web services, the clock and the host's enum parser are parameters of the model.
- Code that only computes is written as functions and lemmas.
- Classes whose fields the C# code updates are Dafny classes: `UserCache`, `Whitelist`, `ServerTypeUtils` and the earlier `Plugin`.
- Each class method is proved against a pure step function over a snapshot of the object's state (`State()`). Lemmas about those step functions state what the C# code promises.
- An exception that escapes a call is the `Raised` outcome.

## Modules

| module | models |
|---|---|
| `Common` | shared values: `Option`, `Outcome`, `ActionResult`, `ServerType`, setting values, `SimpleUser` |
| `Text` | the string operations the code relies on |
| `Guids` | `Guid.ParseExact(…, "N")`, `Guid.ToString()` and the hexadecimal XUID padding |
| `MinecraftVersions` | the `MinecraftVersion` enum and its names |
| `ManagementUtils` | the cache-less lookups of `Management/Utils.cs` |
| `UserCacheStore` | `Management/UserCache.cs` |
| `WhitelistStore` | `Management/Whitelist.cs` |
| `WhitelistSync` | `Whitelist/Whitelist.cs` |
| `ServerInfoQueue` | the persisted queue shared by both versions of the server-type feature |
| `ServerTypes` | `ServerTypeUtils/ServerTypeUtils.cs` |
| `WebMethods` | `MCAddonPlugin/WebMethods.cs` |
| `LegacyPlugin` | the server-type part of the root `PluginMain.cs` |
| `LegacyWebMethods` | the root `WebMethods.cs` |

## Model

| member | source | states |
|---|---|---|
| Common.Names | MCAddonPlugin/Submodules/Management/Whitelist.cs:244-246 | the whitelist names are the entries' names, one per entry, in the same order |
| Text.ReplaceChar | MCAddonPlugin/Submodules/ServerTypeUtils/ServerTypeUtils.cs:59 | `Replace` changes exactly the occurrences of one character and keeps the length |
| Text.ReplaceCharInverse | MCAddonPlugin/WebMethods.cs:50 | replacing `_` by `.` is undone by replacing `.` by `_` when the text had no `.` |
| Text.ContainsAt | PluginMain.cs:212 | `Contains` holds exactly when the part occurs at some position |
| Text.TrimStartSuffix | MCAddonPlugin/Submodules/Management/Utils.cs:85 | trimming the start keeps a suffix of the text, removes only white space, and leaves no white space first |
| Text.TrimEndPrefix | MCAddonPlugin/Submodules/Management/Utils.cs:85 | trimming the end keeps a prefix of the text, removes only white space, and leaves no white space last |
| Text.TrimStartPadded | MCAddonPlugin/Submodules/Management/Utils.cs:85 | trimming the start of white space followed by text that does not start with white space gives that text |
| Text.TrimEndPadded | MCAddonPlugin/Submodules/Management/Utils.cs:85 | trimming the end of text that does not end in white space, followed by white space, gives that text |
| Text.TrimPadded | MCAddonPlugin/Submodules/Management/Utils.cs:85 | trimming white space around a text with no white space at its ends gives that text |
| Guids.ParseHex | MCAddonPlugin/Submodules/Management/Utils.cs:85 | a successful parse yields one digit per character |
| Guids.ParseHexLower | MCAddonPlugin/Submodules/Management/Utils.cs:85 | lower-case hexadecimal text parses back to its digits |
| Guids.ParseHexUpper | MCAddonPlugin/Submodules/Management/Utils.cs:46-49 | upper-case hexadecimal text (`ToString("X")`) parses back to its digits |
| Guids.FormatD | MCAddonPlugin/Submodules/Management/Utils.cs:118 | `Guid.ToString()` is 36 characters long |
| Guids.ParseFormatD | MCAddonPlugin/Submodules/Management/UserCache.cs:199-201 | the "D" form written to the cache parses back to the same identifier |
| Guids.FormatDTrimmed | MCAddonPlugin/Submodules/Management/UserCache.cs:201 | the "D" form has no white space at either end, so trimming leaves it unchanged |
| Guids.LayoutFormatD | MCAddonPlugin/Submodules/Management/UserCache.cs:199-201 | the "D" form, once trimmed, is read back digit group by digit group as the same identifier |
| Guids.ParseNIgnoresSpace | MCAddonPlugin/Submodules/Management/Utils.cs:85 | `Guid.ParseExact` in the "N" form accepts the 32 digits with any white space around them, and yields the same identifier |
| Guids.ParseDIgnoresSpace | MCAddonPlugin/Submodules/Management/UserCache.cs:201 | `Guid.ParseExact` in the "D" form accepts the text with any white space around it, and yields the same identifier |
| Guids.HexDigits | MCAddonPlugin/Submodules/Management/Utils.cs:46 | `ToString("X")` has at least one digit |
| Guids.HexDigitsValue | MCAddonPlugin/Submodules/Management/Utils.cs:46 | the hexadecimal digits of a number denote that number |
| Guids.HexDigitsLength | MCAddonPlugin/Submodules/Management/Utils.cs:46 | a number below 16^k has at most k hexadecimal digits |
| Guids.BigEndianLeadingZeros | MCAddonPlugin/Submodules/Management/Utils.cs:46 | left padding with '0' does not change the value |
| Guids.BigEndianZero | MCAddonPlugin/Submodules/Management/Utils.cs:39 | the value is zero exactly when every digit is zero |
| Guids.EmptyIsZero | MCAddonPlugin/Submodules/Management/Utils.cs:39 | `Guid.Empty` is the identifier whose value is zero |
| Guids.PadLeft | MCAddonPlugin/Submodules/Management/Utils.cs:46 | `PadLeft` yields the width, or the text's own length when that is longer |
| Guids.XuidTextParses | MCAddonPlugin/Submodules/Management/Utils.cs:45-49 | the padded XUID text is 32 characters, starts with 16 zeros and always parses, to the identifier whose value is the XUID as an unsigned 64-bit number |
| Guids.XuidExample | MCAddonPlugin/Submodules/Management/Utils.cs:45 | XUID 12345 becomes `00000000-0000-0000-0000-000000003039`, the layout the comment describes |
| Guids.XuidExampleFormat | MCAddonPlugin/Submodules/Management/Utils.cs:45 | that identifier prints in the "D" layout |
| MinecraftVersions.ValueFromName | MCAddonPlugin/Submodules/ServerTypeUtils/MinecraftVersion.cs:10-83 | every member is named `V` followed by its release parts separated by `_`, and its number is that name's digits read as major, minor and patch |
| MinecraftVersions.IndexOf | MCAddonPlugin/Submodules/ServerTypeUtils/MinecraftVersion.cs:10-83 | each member sits at its declared position in the member list |
| MinecraftVersions.AllVersionsComplete | MCAddonPlugin/Submodules/ServerTypeUtils/MinecraftVersion.cs:10-83 | the member list holds every member |
| MinecraftVersions.EveryVersionListed | MCAddonPlugin/Submodules/ServerTypeUtils/MinecraftVersion.cs:10-83 | the same, for all members at once |
| MinecraftVersions.ConsecutiveIncreasing | MCAddonPlugin/Submodules/ServerTypeUtils/MinecraftVersion.cs:10-83 | members are declared in increasing numeric order |
| MinecraftVersions.ValuesIncreasing | MCAddonPlugin/Submodules/ServerTypeUtils/MinecraftVersion.cs:10-83 | a later member always has a larger number, so comparing numbers compares releases |
| MinecraftVersions.ChainIncreasing | MCAddonPlugin/Submodules/ServerTypeUtils/MinecraftVersion.cs:10-83 | in a list whose neighbours increase, every later element is larger |
| MinecraftVersions.ValueInjective | MCAddonPlugin/Submodules/ServerTypeUtils/MinecraftVersion.cs:10-83 | no two members share a number |
| MinecraftVersions.NameInjective | MCAddonPlugin/Submodules/ServerTypeUtils/MinecraftVersion.cs:10-83 | no two members share a name |
| MinecraftVersions.LatestVersion | MCAddonPlugin/Submodules/ServerTypeUtils/MinecraftVersion.cs:81-82 | 1.21.4 is the last and largest member |
| MinecraftVersions.DisplayNameIsMcVersion | MCAddonPlugin/Submodules/ServerTypeUtils/ServerTypeUtils.cs:59 | the release text derived from the member name equals its display name |
| MinecraftVersions.DisplayLayout | MCAddonPlugin/Submodules/ServerTypeUtils/MinecraftVersion.cs:11-82 | the display name is the member name without `V`, with `_` shown as `.` |
| MinecraftVersions.ParseName | MCAddonPlugin/WebMethods.cs:50 | `Enum.TryParse` on a name finds the member with exactly that name, and fails exactly when none has it |
| MinecraftVersions.ParseNameOf | MCAddonPlugin/WebMethods.cs:50 | every member's name parses to that member |
| MinecraftVersions.FindName | MCAddonPlugin/WebMethods.cs:50 | searching a list by name finds a member of the list with that name, or reports that none has it |
| ManagementUtils.Route | MCAddonPlugin/Submodules/Management/Utils.cs:98-100 | a name is routed to Geyser exactly when it starts with the prefix, with the prefix removed; otherwise to Mojang unchanged |
| ManagementUtils.PrefixSplit | MCAddonPlugin/Submodules/Management/Utils.cs:25 | removing the prefix and putting it back restores the name |
| ManagementUtils.XuidResult | MCAddonPlugin/Submodules/Management/Utils.cs:36-55 | a non-OK reply gives `Guid.Empty`; the lookup raises exactly when the request throws |
| ManagementUtils.XuidResultValue | MCAddonPlugin/Submodules/Management/Utils.cs:42-49 | an OK reply always yields the identifier of the XUID, never the parse-failure path, and it is `Guid.Empty` exactly for XUID 0 |
| ManagementUtils.UuidResult | MCAddonPlugin/Submodules/Management/Utils.cs:75-85 | a non-OK reply gives `Guid.Empty`; an OK reply raises exactly when its id, with the white space around it removed, is not 32 hexadecimal digits, and otherwise yields that id |
| ManagementUtils.QueryGeyserXUID | MCAddonPlugin/Submodules/Management/Utils.cs:23-25 | a name shorter than the prefix raises; a prefixed name asks Geyser for the name without the prefix |
| ManagementUtils.GetUserID | MCAddonPlugin/Submodules/Management/Utils.cs:95-101 | the answer is the answer of the service the name is routed to |
| ManagementUtils.LookupUsers | MCAddonPlugin/Submodules/Management/Utils.cs:110-123 | the method's loop returns what the list resolution specifies |
| ManagementUtils.CollectRaises | MCAddonPlugin/Submodules/Management/Utils.cs:113-121 | collecting the answers raises exactly when one of them raised |
| ManagementUtils.CollectSound | MCAddonPlugin/Submodules/Management/Utils.cs:116-118 | each collected pair is a given name, in order, with the "D" form of that name's own non-empty answer |
| ManagementUtils.CollectPairAt | MCAddonPlugin/Submodules/Management/Utils.cs:116-118 | each collected pair comes from one position whose answer is a non-empty identifier |
| ManagementUtils.CollectComplete | MCAddonPlugin/Submodules/Management/Utils.cs:116-118 | every name whose answer is a non-empty identifier is collected with it |
| ManagementUtils.ResolveRaises | MCAddonPlugin/Submodules/Management/Utils.cs:113-121 | the lookup raises exactly when one of the names' lookups raises |
| ManagementUtils.ResolveSound | MCAddonPlugin/Submodules/Management/Utils.cs:116-118 | the result's names are the requested names, in order, with some left out; each carries the "D" form of its own non-empty identifier |
| ManagementUtils.ResolveComplete | MCAddonPlugin/Submodules/Management/Utils.cs:116-118 | every requested name whose identifier is not empty appears in the result with that identifier |
| UserCacheStore.NewEntry | MCAddonPlugin/Submodules/Management/UserCache.cs:40-42 | a new entry keeps the name and identifier and expires after the present |
| UserCacheStore.Parsed | MCAddonPlugin/Submodules/Management/UserCache.cs:80 | every stored entry is read as the entry with the same fields, in order |
| UserCacheStore.PurgeFails | MCAddonPlugin/Submodules/Management/UserCache.cs:79-85 | loading fails exactly when some stored expiry cannot be read as a date |
| UserCacheStore.ParsedSnoc | MCAddonPlugin/Submodules/Management/UserCache.cs:80 | reading entries one at a time agrees with reading them all |
| UserCacheStore.PurgeKeepsUnexpired | MCAddonPlugin/Submodules/Management/UserCache.cs:81 | `RemoveAll` keeps entries in order and keeps only those not yet expired |
| UserCacheStore.PurgeKeepsAllUnexpired | MCAddonPlugin/Submodules/Management/UserCache.cs:81 | every entry not yet expired is kept |
| UserCacheStore.ReadUserCacheJSON | MCAddonPlugin/Submodules/Management/UserCache.cs:66-88 | the method returns the loaded cache: it raises exactly for a handle to a file that does not exist; without a handle, or with text that does not deserialise, the cache is empty; otherwise it holds the unexpired entries |
| UserCacheStore.FirstWhere | MCAddonPlugin/Submodules/Management/UserCache.cs:199-201 | `First` finds the first entry that matches, and reports when none does |
| UserCacheStore.MissBlocksRetry | MCAddonPlugin/Submodules/Management/UserCache.cs:193-196 | a name that missed within five minutes gets `Guid.Empty`, with no request and no change |
| UserCacheStore.CacheHitAnswers | MCAddonPlugin/Submodules/Management/UserCache.cs:199-202 | a cached name is answered from its first cache entry, with no request and no change |
| UserCacheStore.QueryUpdatesCache | MCAddonPlugin/Submodules/Management/UserCache.cs:205-215 | an uncached name is requested once; a found identifier is appended to the cache for a month; a first miss is recorded; a repeated miss raises because `Add` finds the key already present |
| UserCacheStore.LookupStepGrows | MCAddonPlugin/Submodules/Management/UserCache.cs:191-216 | a lookup only appends to the cache, records at most one request and never forgets a miss |
| UserCacheStore.MissThenBlocked | MCAddonPlugin/Submodules/Management/UserCache.cs:193-196 | after a miss, the same name is blocked for the next five minutes |
| UserCacheStore.FoundThenCached | MCAddonPlugin/Submodules/Management/UserCache.cs:199-210 | after a found lookup, asking again gives the same answer from the cache, with no change |
| UserCacheStore.StartAll | MCAddonPlugin/Submodules/Management/UserCache.cs:227-234 | every lookup of the list starts before any finishes, so each checks the misses and the cache as they were on entry; only requests are added, at most one per name |
| UserCacheStore.FinishAllAt | MCAddonPlugin/Submodules/Management/UserCache.cs:209-235 | each lookup's answer is its reply applied to the state the earlier lookups left |
| UserCacheStore.FinishAllMisses | MCAddonPlugin/Submodules/Management/UserCache.cs:211-214 | after the lookups, a name has a miss entry exactly when it had one or one of its lookups got an empty reply |
| UserCacheStore.FinishAllGrows | MCAddonPlugin/Submodules/Management/UserCache.cs:209-214 | finishing keeps every cache entry and miss entry and appends at most one entry per lookup |
| UserCacheStore.AnswerAt | MCAddonPlugin/Submodules/Management/UserCache.cs:191-235 | a blocked or cached name is answered as a lone lookup answers it; a queried name gets its service's answer, except that an empty reply raises when the name already missed or was queried earlier in the list |
| UserCacheStore.AnswerFoundAlone | MCAddonPlugin/Submodules/Management/UserCache.cs:191-235 | a lookup in the list finds an identifier exactly when a lone lookup from the entry state would, and the same one |
| UserCacheStore.LookupAllRaises | MCAddonPlugin/Submodules/Management/UserCache.cs:229-235 | the list lookup raises exactly when one of its lookups raises |
| UserCacheStore.LookupAllSound | MCAddonPlugin/Submodules/Management/UserCache.cs:227-233 | the returned pairs are given names, in order, each with the "D" text of the identifier a lone lookup from the entry state finds |
| UserCacheStore.LookupAllComplete | MCAddonPlugin/Submodules/Management/UserCache.cs:227-233 | every name a lone lookup from the entry state finds is returned with that identifier |
| UserCacheStore.LookupAllGrows | MCAddonPlugin/Submodules/Management/UserCache.cs:224-235 | looking up a list keeps every cache and miss entry and adds at most one cache entry and one request per name |
| UserCacheStore.StartTwice | MCAddonPlugin/Submodules/Management/UserCache.cs:205-234 | a name listed twice that is neither cached nor blocked is requested twice |
| UserCacheStore.DuplicateMissRaises | MCAddonPlugin/Submodules/Management/UserCache.cs:213-235 | a name listed twice that its service does not find makes the second `Dictionary.Add` raise, so the list lookup raises |
| UserCacheStore.FinishTwiceFound | MCAddonPlugin/Submodules/Management/UserCache.cs:209-210 | two lookups of one name that both find it append two equal cache entries |
| UserCacheStore.CollectTwice | MCAddonPlugin/Submodules/Management/UserCache.cs:230-232 | two finds of one name are returned as two equal pairs |
| UserCacheStore.DuplicateFoundTwice | MCAddonPlugin/Submodules/Management/UserCache.cs:209-233 | a name listed twice that its service finds is requested twice, cached twice and returned twice |
| UserCacheStore.JoinRefreshesOrAppends | MCAddonPlugin/Submodules/Management/UserCache.cs:50-60 | after a join the player has an entry valid for a month: a matching entry is refreshed in place, otherwise one is appended; no other entry changes |
| UserCacheStore.JoinIdempotent | MCAddonPlugin/Submodules/Management/UserCache.cs:50-60 | the same join handled twice gives the same cache as once |
| UserCacheStore.UserCache.constructor | MCAddonPlugin/Submodules/Management/UserCache.cs:23-30 | given a cache file whose load returns, the cache starts as the loaded entries, with no misses |
| UserCacheStore.UserCache.RefreshUserCache | MCAddonPlugin/Submodules/Management/UserCache.cs:93-95 | the call raises exactly for a handle to a file that does not exist, leaving the cache as it was; otherwise the cache is replaced by the loaded entries |
| UserCacheStore.UserCache.WriteUserCacheJSON | MCAddonPlugin/Submodules/Management/UserCache.cs:100-113 | with any handle the cache is written, creating the file when it does not exist, and the written file holds each entry with its expiry; without a handle nothing is written |
| UserCacheStore.WriteThenLoad | MCAddonPlugin/Submodules/Management/UserCache.cs:66-113 | with a handle, loading the file just written returns, in order, exactly the written entries that have not expired |
| UserCacheStore.UserCache.OnUserJoins | MCAddonPlugin/Submodules/Management/UserCache.cs:50-60 | the cache becomes the join specification's cache |
| UserCacheStore.UserCache.StartLookup | MCAddonPlugin/Submodules/Management/UserCache.cs:191-208 | the part before the wait changes only the requests, as the start specification says |
| UserCacheStore.UserCache.FinishLookup | MCAddonPlugin/Submodules/Management/UserCache.cs:209-215 | the part after the wait changes the cache and misses and answers as the finish specification says |
| UserCacheStore.UserCache.GetUserID | MCAddonPlugin/Submodules/Management/UserCache.cs:191-216 | the new state and the answer are those of the lookup specification |
| UserCacheStore.UserCache.StartLookups | MCAddonPlugin/Submodules/Management/UserCache.cs:227-234 | starting every lookup of the list gives the pending lookups and requests of the fan-out specification |
| UserCacheStore.UserCache.FinishLookups | MCAddonPlugin/Submodules/Management/UserCache.cs:228-235 | finishing the pending lookups in order gives the state and answers of the fan-out specification, and the collected pairs |
| UserCacheStore.UserCache.LookupUsers | MCAddonPlugin/Submodules/Management/UserCache.cs:224-238 | all lookups start before any finishes; the state and result follow the list specification, and the cache is written once after a lookup that returns |
| WhitelistStore.ToEntries | MCAddonPlugin/Submodules/Management/Whitelist.cs:116-136 | written entries carry each user's name and identifier, one per user, in order |
| WhitelistStore.FromEntries | MCAddonPlugin/Submodules/Management/Whitelist.cs:86-110 | read entries become users with the same name and identifier, in order |
| WhitelistStore.WriteThenRead | MCAddonPlugin/Submodules/Management/Whitelist.cs:86-136 | with a handle, reading the file after writing a list gives the list back, whether or not the file existed |
| WhitelistStore.WithoutNamesExact | MCAddonPlugin/Submodules/Management/Whitelist.cs:194-199 | removal keeps exactly the users whose name was not given, in their order |
| WhitelistStore.WithoutNamesIdempotent | MCAddonPlugin/Submodules/Management/Whitelist.cs:196 | removing the same names twice changes nothing more |
| WhitelistStore.PluginFlagChange | MCAddonPlugin/Submodules/Management/Whitelist.cs:61-66 | a new plugin flag value is copied to the host flag and pushed; an unchanged one is not |
| WhitelistStore.HostFlagChange | MCAddonPlugin/Submodules/Management/Whitelist.cs:69-76 | a new host flag value is copied to the plugin flag and pushed; an unchanged one is not |
| WhitelistStore.OtherChangesIgnored | MCAddonPlugin/Submodules/Management/Whitelist.cs:56-80 | any other setting, or a non-boolean value, changes nothing and pushes an empty map |
| WhitelistStore.EchoSettles | MCAddonPlugin/Submodules/Management/Whitelist.cs:56-80 | the echo of a pushed change stops after one round trip, with both flags holding the new value |
| WhitelistStore.ReloadWritesConsoleOnlyWhenReady | MCAddonPlugin/Submodules/Management/Whitelist.cs:141-151 | the console reload is sent exactly when the server is ready; the names are always pushed |
| WhitelistStore.LatchedCallsChangeNothing | MCAddonPlugin/Submodules/Management/Whitelist.cs:158-222 | a refresh, add or set started while the same one runs returns at once, changing nothing |
| WhitelistStore.LatchesClearedOnReturn | MCAddonPlugin/Submodules/Management/Whitelist.cs:158-222 | a refresh, add or set that returns leaves its running flag as it found it |
| WhitelistStore.AddAppends | MCAddonPlugin/Submodules/Management/Whitelist.cs:176-188 | adding appends the users resolved with the settings' current prefix to the unchanged list, and they are some of the given names in order |
| WhitelistStore.SetReplaces | MCAddonPlugin/Submodules/Management/Whitelist.cs:207-228 | with the server busy and no refresh running the list is reloaded from the file, and with a refresh running it is kept; either way the panel task fails "not ready"; otherwise the list becomes the resolved users of the given names, or of the users configured at the call, and the panel task ends |
| WhitelistStore.RemoveExact | MCAddonPlugin/Submodules/Management/Whitelist.cs:194-199 | removal keeps exactly the other users, in order, and is idempotent |
| WhitelistStore.StuckAddLatch | MCAddonPlugin/Submodules/Management/Whitelist.cs:176-188 | a lookup that raises leaves the add flag set, so every later add is ignored |
| WhitelistStore.StuckAddLatchExample | MCAddonPlugin/Submodules/Management/Whitelist.cs:180-182 | a Mojang service that throws for "Steve" leaves the add flag set |
| WhitelistStore.ReleasingClearsLatch | MCAddonPlugin/Submodules/Management/Whitelist.cs:176-188 | the add that releases its flag on every path leaves it clear, and agrees with the original whenever that returns |
| WhitelistStore.Whitelist.constructor | MCAddonPlugin/Submodules/Management/Whitelist.cs:24-41 | given a stored list whose read returns, the list is the stored file, its names are assigned directly to the configured users without a settings push, and both flags start at the configured value |
| WhitelistStore.Whitelist.SettingModified | MCAddonPlugin/Submodules/Management/Whitelist.cs:56-80 | the flags and the pushed map follow the flag-sync specification |
| WhitelistStore.Whitelist.ReloadSettings | MCAddonPlugin/Submodules/Management/Whitelist.cs:141-151 | the state becomes the reload specification's state |
| WhitelistStore.Whitelist.WriteWhitelistJSON | MCAddonPlugin/Submodules/Management/Whitelist.cs:116-136 | the file becomes the written list |
| WhitelistStore.Whitelist.SaveWhitelist | MCAddonPlugin/Submodules/Management/Whitelist.cs:183-184 | storing a list writes the file, reloads the console and pushes the names |
| WhitelistStore.Whitelist.RefreshWhitelist | MCAddonPlugin/Submodules/Management/Whitelist.cs:158-168 | the state and outcome follow the refresh specification |
| WhitelistStore.Whitelist.AddUsersToWhitelist | MCAddonPlugin/Submodules/Management/Whitelist.cs:176-188 | the state and outcome follow the add specification, with the Geyser prefix read from the settings at the call |
| WhitelistStore.Whitelist.AddFound | MCAddonPlugin/Submodules/Management/Whitelist.cs:182-187 | after the lookup, the state follows the add specification's second half |
| WhitelistStore.Whitelist.RemoveUsersFromWhitelist | MCAddonPlugin/Submodules/Management/Whitelist.cs:194-199 | the state follows the removal specification |
| WhitelistStore.Whitelist.SetWhitelist | MCAddonPlugin/Submodules/Management/Whitelist.cs:207-228 | the state and outcome follow the set specification, with the configured users and the Geyser prefix read from the settings at the call |
| WhitelistStore.Whitelist.SetWhileNotReady | MCAddonPlugin/Submodules/Management/Whitelist.cs:214-220 | with the server busy, set follows the not-ready branch |
| WhitelistStore.Whitelist.SetToFound | MCAddonPlugin/Submodules/Management/Whitelist.cs:222-227 | after the lookup, set follows the specification's replacing branch |
| WhitelistStore.Whitelist.WhiteListEnable | MCAddonPlugin/Submodules/Management/Whitelist.cs:251-258 | the console's "turned on" message sets the plugin flag, pushes it and is not consumed |
| WhitelistStore.Whitelist.WhiteListDisable | MCAddonPlugin/Submodules/Management/Whitelist.cs:261-268 | the console's "turned off" message clears the plugin flag, pushes it and is not consumed |
| WhitelistStore.Whitelist.WhiteListKick | MCAddonPlugin/Submodules/Management/Whitelist.cs:272-276 | a rejected player is recorded with the address and the message is not consumed |
| WhitelistSync.SettingModified | MCAddonPlugin/Submodules/Whitelist/Whitelist.cs:24-46 | a boolean change of either flag is pushed to the other flag; anything else pushes an empty map |
| WhitelistSync.EchoNeverSettles | MCAddonPlugin/Submodules/Whitelist/Whitelist.cs:29-40 | with no comparison against the current value, each push is answered by a push to the partner, without end |
| ServerInfoQueue.LoadQueue | MCAddonPlugin/Submodules/ServerTypeUtils/ServerTypeUtils.cs:29-41 | startup queues the file's requests; a missing or unreadable file queues none |
| ServerInfoQueue.AddAppends | MCAddonPlugin/Submodules/ServerTypeUtils/ServerTypeUtils.cs:247-264 | adding appends even when the file write fails, and succeeds exactly when it does not fail |
| ServerInfoQueue.AddAllAppends | MCAddonPlugin/Submodules/ServerTypeUtils/ServerTypeUtils.cs:247-264 | successive adds append in order |
| ServerInfoQueue.DrainInOrder | MCAddonPlugin/Submodules/ServerTypeUtils/ServerTypeUtils.cs:266-283 | processing n times takes the first n requests in order and leaves the rest |
| ServerInfoQueue.Fifo | MCAddonPlugin/Submodules/ServerTypeUtils/ServerTypeUtils.cs:247-283 | the queue is first in, first out |
| ServerTypes.FirstMatch | MCAddonPlugin/Submodules/ServerTypeUtils/ServerTypeUtils.cs:63-88 | the chosen build is the first whose key matches the version, and none is chosen exactly when no key matches |
| ServerTypes.JavaForRanges | MCAddonPlugin/Submodules/ServerTypeUtils/ServerTypeUtils.cs:169-238 | Java 8 below 1.15, 11 for 1.15 to 1.16.5, 17 for 1.17 to 1.20.4, and 21 from 1.20.5 on |
| ServerTypes.FirstRuntimeKey | MCAddonPlugin/Submodules/ServerTypeUtils/ServerTypeUtils.cs:187-232 | the chosen runtime is the first installed one that matches, and none exactly when none matches |
| ServerTypes.JavaVersionFor | MCAddonPlugin/Submodules/ServerTypeUtils/ServerTypeUtils.cs:169-238 | a runtime is chosen only when installed and matching the version's Java, and always when one is |
| ServerTypes.ShouldUpdateCases | MCAddonPlugin/Submodules/ServerTypeUtils/ServerTypeUtils.cs:137-162 | the server is updated exactly for Forge 1.17 to 1.20.2 or NeoForge, when the build's Unix argument file is missing |
| ServerTypes.AssembleUpdates | MCAddonPlugin/Submodules/ServerTypeUtils/ServerTypeUtils.cs:113-115 | a successful switch updates exactly when the chosen build needs it |
| ServerTypes.ServerInfoFailures | MCAddonPlugin/Submodules/ServerTypeUtils/ServerTypeUtils.cs:63-88 | other server types fail as unsupported; Forge and NeoForge fail with "no version info" exactly when no key matches; a failure pushes, deletes and updates nothing |
| ServerTypes.ServerInfoSettings | MCAddonPlugin/Submodules/ServerTypeUtils/ServerTypeUtils.cs:59-110 | a success pushes exactly the server type, the first matching build, the Java runtime when one was found, and the world name unless the level already ends with the version; it deletes the world folder exactly when asked or configured and present |
| ServerTypes.ProcessTakesHead | MCAddonPlugin/Submodules/ServerTypeUtils/ServerTypeUtils.cs:266-283 | an empty queue fails; otherwise the head is removed and applied, and a failed write fails instead of applying it |
| ServerTypes.ServerTypeUtils.constructor | MCAddonPlugin/Submodules/ServerTypeUtils/ServerTypeUtils.cs:22-42 | the queue starts as the loaded file |
| ServerTypes.ServerTypeUtils.SetServerInfo | MCAddonPlugin/Submodules/ServerTypeUtils/ServerTypeUtils.cs:51-127 | the result is the server-info specification's |
| ServerTypes.ServerTypeUtils.AssembleSettings | MCAddonPlugin/Submodules/ServerTypeUtils/ServerTypeUtils.cs:61-126 | the search loop and the settings it builds follow the specification |
| ServerTypes.ServerTypeUtils.AddServerInfoToQueue | MCAddonPlugin/Submodules/ServerTypeUtils/ServerTypeUtils.cs:247-264 | the queue and result follow the add specification |
| ServerTypes.ServerTypeUtils.ProcessServerInfoQueue | MCAddonPlugin/Submodules/ServerTypeUtils/ServerTypeUtils.cs:266-283 | the queue and result follow the processing specification |
| WebMethods.ParsedType | MCAddonPlugin/WebMethods.cs:39-43 | a parsed server type is used, and the enum's default when parsing fails |
| WebMethods.ParseVersionArg | MCAddonPlugin/WebMethods.cs:50 | the version text parses to the member named `V` plus the text with `.` as `_`, and fails exactly when no member has that name |
| WebMethods.VersionRoundTrip | MCAddonPlugin/WebMethods.cs:50 | every member's release text parses back to that member |
| WebMethods.NameRoundTrip | MCAddonPlugin/WebMethods.cs:50 | turning a member name into release text and back restores it |
| WebMethods.VersionParseExact | MCAddonPlugin/WebMethods.cs:50 | for a text without `_`, parsing gives a member exactly when the text is that member's release text |
| WebMethods.EmptyVersionRejected | MCAddonPlugin/WebMethods.cs:68-71 | an empty version text names no member |
| WebMethods.SetServerInfoArguments | MCAddonPlugin/WebMethods.cs:36-56 | empty arguments take the stored settings; an unparsable type becomes the default; an unknown version is rejected |
| WebMethods.SetServerInfoRejects | MCAddonPlugin/WebMethods.cs:50-53 | a rejected version fails with "Invalid Minecraft version", changing nothing |
| WebMethods.ReleaseTextAccepted | MCAddonPlugin/WebMethods.cs:47-56 | a member's release text is passed on as that member |
| WebMethods.AddServerInfoToQueueOutcome | MCAddonPlugin/WebMethods.cs:63-75 | adding succeeds exactly when the version parses, queueing the parsed request even if the write fails; otherwise it fails with the queue unchanged |
| LegacyPlugin.VersionText | PluginMain.cs:97 | a declared version gives its release text, and the zero value an empty text |
| LegacyPlugin.LastRuntimeKey | PluginMain.cs:205-254 | the earlier plugin keeps the last installed runtime that matches, and none exactly when none matches |
| LegacyPlugin.FailuresChangeNothing | PluginMain.cs:91-126 | a call that does not succeed changes nothing; it raises exactly for NeoForge with a release text under two characters and some NeoForge entry; "no version info" means no key matched |
| LegacyPlugin.SuccessWritesSettings | PluginMain.cs:97-159 | a success stores the type and the first matching build, leaving the other loader's build alone, the Java runtime and the world name unless the level ends with the version; it deletes the world folder exactly when asked or configured and present, saves the settings once, updates exactly when the earlier rule says so, and leaves the queue alone |
| LegacyPlugin.LegacyShouldUpdateCases | PluginMain.cs:157-191 | the earlier plugin updates exactly for Forge 1.17 to 1.20.2 or NeoForge when the build's Unix argument file is missing, which agrees with the current rule for every declared version |
| LegacyPlugin.ZeroVersion | PluginMain.cs:111-126 | the zero version makes NeoForge raise exactly when it has entries, and otherwise fail with "no version info" |
| LegacyPlugin.UniqueMatchAgrees | PluginMain.cs:205-254 | when exactly one installed runtime matches, both versions of the feature pick it |
| LegacyPlugin.LegacyTakesLast | PluginMain.cs:244 | with two Java 17 runtimes the earlier plugin picks the second |
| LegacyPlugin.CurrentTakesFirst | MCAddonPlugin/Submodules/ServerTypeUtils/ServerTypeUtils.cs:200-232 | with two Java 17 runtimes the current utilities pick the first |
| LegacyPlugin.DotEightIgnored | PluginMain.cs:212 | a `-1.8-` runtime is not recognised as Java 8 by the earlier plugin |
| LegacyPlugin.DotEightAccepted | MCAddonPlugin/Submodules/ServerTypeUtils/ServerTypeUtils.cs:187 | the current utilities recognise a `-1.8-` runtime as Java 8 |
| LegacyPlugin.ProcessAppliesHead | PluginMain.cs:286-304 | an empty queue fails; otherwise the head is removed first and then applied |
| LegacyPlugin.Plugin.constructor | PluginMain.cs:25 | the plugin starts with the host settings and an empty queue |
| LegacyPlugin.Plugin.PostInit | PluginMain.cs:72-87 | startup appends the queue file's requests, if any |
| LegacyPlugin.Plugin.UpdateJavaVersion | PluginMain.cs:193-258 | only the Java setting changes, to the runtime the selection specifies |
| LegacyPlugin.Plugin.WriteRuntimeKeys | PluginMain.cs:205-254 | the loop over installed runtimes leaves the Java setting at the last match, or unchanged when none matches |
| LegacyPlugin.Plugin.SetServerInfo | PluginMain.cs:91-162 | the state and outcome follow the earlier plugin's specification |
| LegacyPlugin.Plugin.ApplyServerInfo | PluginMain.cs:99-160 | the same, once the release text and runtime are derived |
| LegacyPlugin.Plugin.WriteBuild | PluginMain.cs:101-120 | the build loop raises exactly in the NeoForge `Substring` case, finds the first match, and stores it only when found |
| LegacyPlugin.Plugin.Complete | PluginMain.cs:129-160 | the steps after the match follow the completion specification |
| LegacyPlugin.Plugin.WriteJavaAndWorld | PluginMain.cs:129-134 | the Java runtime and the world name are written as specified |
| LegacyPlugin.Plugin.AddServerInfoToQueue | PluginMain.cs:266-284 | the queue and result follow the shared add specification |
| LegacyPlugin.Plugin.ProcessServerInfoQueue | PluginMain.cs:286-304 | the state and outcome follow the processing specification |
| LegacyWebMethods.ResolveVersion | WebMethods.cs:45-51 | an empty text takes the stored version, a member's text gives that member, and anything else gives the zero value |
| LegacyWebMethods.ReleaseTextResolved | WebMethods.cs:47-51 | a member's release text is passed on as that member |
| LegacyWebMethods.UnknownVersionReachesPlugin | WebMethods.cs:50-53 | an unknown version is not reported: NeoForge then raises when it has entries, and otherwise fails with "no version info" |
| LegacyWebMethods.AddAlwaysSucceeds | WebMethods.cs:59-68 | adding always succeeds, even when the write fails, and queues exactly one request: the given type, the parsed version or the zero value for an empty one, and the deletion flag; a write that succeeds hands the whole new queue to the file |

## Left out

- Web services: the Geyser and Mojang HTTP calls are a parameter (`Backends`) that answers a request with an OK payload, a non-OK status or an exception. Logging is not modelled.
- JSON and files: a file is a value. For the whitelist and the user cache it is one of: no handle (`GetFile` gives `null`), a handle to a file that does not exist, text that does not deserialise, or a list. `OpenText` on a handle to a file that does not exist throws outside the `try` (Whitelist.cs:93, UserCache.cs:73), while `OpenWrite` and `CreateText` create the file (Whitelist.cs:126, UserCache.cs:107). Serialisation itself is not modelled.
- Whitelist.cs:116-136 truncates the file and closes the writer, so the model treats that write as replacing the content.
- The queue-file writes at ServerTypeUtils.cs:256-258 and 275-277 and at PluginMain.cs:276-278 and 296-298 open the file without truncating it and never flush or close the `StreamWriter`. On disk, old bytes may remain past the new text, or the buffered text may never arrive. The model records in `saved` the list whose text the code asks to write; the bytes that reach the disk are not modelled.
- `UpdateJavaVersion` finds the installed runtimes by reflection. The model takes them as an `Option` that is `None` when that reflection fails.
- `SetSettings`, the console reload and the queue-file writes are outputs recorded in the state, such as `pushes`, `console` and `saved`.
- Concurrency in `UserCache.LookupUsers`: every `GetUserID` call is started before any finishes (UserCache.cs:227-234), so each checks the misses and the cache as they were on entry. The replies are then applied one lookup at a time, in list order. The C# code adds found users in completion order, and the model returns them in list order. The unsynchronised `List.Add` and `Dictionary.Add` calls from parallel continuations are not modelled beyond that order.
- Concurrency in `Utils.LookupUsers` (Utils.cs:110-123): each lookup depends only on its own name, so the model resolves the names one after the other; found users come back in list order rather than completion order.
- Interleaving: another call that arrives while an `async` call awaits is modelled only through the running flags at call entry. Each call otherwise runs atomically.
- Time: the clock is an integer. `AddMonths(1)` is an input (`monthLater`); the five-minute miss window is a constant.
- Date parsing of the stored expiry is a value that either parsed or did not.
- The console message handlers' regular expressions are not modelled. Each handler is called with the text it matched.
- `Enum.TryParse` of the server type is a parameter. Trimmed, comma-separated and numeric inputs to the version parse are not modelled: the parse is by exact member name.
- `StartsWith` and `EndsWith` are ordinal. Culture-sensitive comparison is not modelled.
- At ServerTypeUtils.cs:229, the `V1_21_5` case is not a member of the enum, so it is part of the default case.
- MCAddonPlugin/PluginMain.cs:107 and MCAddonPlugin/WebMethods.cs:99 are wiring that does not type-check. The plugin's startup and lifecycle are not part of this model.
- WhitelistStore.Whitelist.constructor requires a stored list whose read returns. A handle to a file that does not exist makes `OpenText` throw (Whitelist.cs:93). Text that deserialises to `null` (the literal `null`, or empty or blank text, all `NullList` in the model) makes `Enumerable.Select` throw an `ArgumentNullException` at Whitelist.cs:108. Either exception reaches the constructor wrapped by `.Result` (Whitelist.cs:34) and leaves no object to model.
- UserCacheStore.UserCache.constructor requires a cache file whose load returns: a handle to a file that does not exist makes `OpenText` throw (UserCache.cs:73), and `.Result` at UserCache.cs:27 then fails the construction, leaving no object to model.
- The `QueryGeyserXUID` and `QueryJavaUUID` copies in UserCache.cs:121-183 are the same as those in Utils.cs. Both classes use the `ManagementUtils` model of them.
- Deleting the world folder and `app.Update()` are recorded effects, not performed.
- A `null` element inside the stored queue list is not modelled.
- Settings.cs defaults are not part of this model. The whitelist's configured users and Geyser prefix are a `WhitelistSettings` argument read afresh at each call (Whitelist.cs:182, 213, 222), because the panel can change them at any time. The host's settings are a `Host` value passed to each call.
- OpList.cs is not part of this model.
- `ProcessServerInfoQueue` in both web-method files only delegates, so it carries no contract of its own.
- ManagementUtils.QueryJavaUUID: its contract only routes the name to Mojang; `UuidResult` states the reply handling.
- `GetUserID` and `LookupUsers` do not catch exceptions from the web requests, so such an exception escapes both. A second miss for a name that already has a miss entry raises in `Dictionary.Add` (UserCache.cs:213). `ReadUserCacheJSON` drops expired entries when it loads the file.
- The `MinecraftVersion` type used by the root PluginMain.cs and WebMethods.cs (`MCAddonPlugin.MinecraftVersion`) is not part of this model. It is taken to be the enum in MinecraftVersion.cs. No member of that enum has the value 0, so a failed `TryParse` leaves 0, whose text is "0". LegacyPlugin.ZeroVersion and LegacyWebMethods.UnknownVersionReachesPlugin rely on this.

## Findings

| source | as written | input that shows it | evidently intended | confidence | as-written member | corrected member |
|---|---|---|---|---|---|---|
| MCAddonPlugin/Submodules/Management/Whitelist.cs:176-188 | the "adding" flag is set before a lookup that can raise and is cleared only when the lookup returns | a Mojang service that throws for "Steve", with Geyser prefix "."; every later add is then ignored | the flag is cleared on every path, for example in a `finally` block | not executed | WhitelistStore.StuckAddLatchExample | WhitelistStore.ReleasingClearsLatch |
