/** The whitelist manager (Management/Whitelist.cs): the list of whitelisted players kept
    in `whitelist.json`, two mirrored copies of the "whitelist enabled" flag that stop a
    flag change from echoing between the plugin's settings and the server's, and one
    latch per long-running operation that makes a second call return at once. Settings
    pushed to the host, console lines, running-task records and "not whitelisted"
    notifications are recorded as lists. */
module WhitelistStore {
  import opened Common
  import opened Text
  import opened ManagementUtils

  const PluginFlagNode: string := "MCAddonPlugin.Whitelist.Enabled"
  const HostFlagNode: string := "MinecraftModule.Game.Whitelist"
  const UsersNode: string := "MCAddonPlugin.Whitelist.Users"

  const RefreshTaskName: string := "RefreshWhitelist"
  const AddTaskName: string := "AddUsersToWhitelist"
  const SetTaskName: string := "SetWhitelist"
  const NotReadyReason: string := "Server is not fully started or fully shut down"

  /** `WhitelistEntry`: the form a player takes in `whitelist.json`. */
  datatype WhitelistEntry = WhitelistEntry(name: string, uuid: string)

  /** `whitelist.json` as `GetFile` finds it: no handle at all (`GetFile` returned `null`),
      a handle to a file that does not exist, text that is not a list of entries, text the
      JSON reader turns into `null` (the literal `null`, or empty or blank text), or a
      list of entries. */
  datatype StoredList = NoHandle | Absent | Malformed | NullList
                      | Entries(entries: seq<WhitelistEntry>)

  /** The server's run state; every state other than ready and stopped is "busy". */
  datatype AppState = Ready | Stopped | Busy

  /** A running-task record: created, ended normally, or ended as failed with a reason. */
  datatype TaskEvent = TaskStarted(task: string) | TaskEnded(task: string)
                     | TaskFailed(task: string, reason: string)

  /** The users converted to file entries, in order. */
  function ToEntries(users: seq<SimpleUser>): (es: seq<WhitelistEntry>)
    ensures |es| == |users|
    ensures forall i :: 0 <= i < |users| ==> es[i] == WhitelistEntry(users[i].name, users[i].id)
  {
    if users == [] then [] else [WhitelistEntry(users[0].name, users[0].id)] + ToEntries(users[1..])
  }

  /** The file entries converted to users, in order. */
  function FromEntries(es: seq<WhitelistEntry>): (users: seq<SimpleUser>)
    ensures |users| == |es|
    ensures forall i :: 0 <= i < |es| ==> users[i] == SimpleUser(es[i].name, es[i].uuid)
  {
    if es == [] then [] else [SimpleUser(es[0].name, es[0].uuid)] + FromEntries(es[1..])
  }

  /** `ReadWhitelistJSON`: no handle or unparsable text gives an empty list; `OpenText`
      throws for a file that does not exist, and the conversion throws for `null`. */
  function ReadWhitelist(file: StoredList): Outcome<seq<SimpleUser>>
  {
    match file
    case NoHandle => Returned([])
    case Absent => Raised
    case Malformed => Returned([])
    case NullList => Raised
    case Entries(es) => Returned(FromEntries(es))
  }

  /** `WriteWhitelistJSON`: with a handle, the file is created if need be, emptied, and
      holds the list; without one nothing is written. */
  function WriteWhitelist(file: StoredList, users: seq<SimpleUser>): StoredList
  {
    if file.NoHandle? then file else Entries(ToEntries(users))
  }

  /** Writing a list and reading it back gives the same list, whenever there is a handle
      (the write creates a file that did not exist). */
  lemma WriteThenRead(file: StoredList, users: seq<SimpleUser>)
    requires !file.NoHandle?
    ensures ReadWhitelist(WriteWhitelist(file, users)) == Returned(users)
  {
    var back := FromEntries(ToEntries(users));
    assert |back| == |users|;
    forall i | 0 <= i < |users| ensures back[i] == users[i] {
    }
    assert back == users;
  }

  /** `_whitelist.RemoveAll(entry => users.Contains(entry.Name))`. */
  function WithoutNames(list: seq<SimpleUser>, names: seq<string>): seq<SimpleUser>
  {
    if list == [] then []
    else (if list[0].name in names then [] else [list[0]]) + WithoutNames(list[1..], names)
  }

  /** Removal keeps exactly the entries whose name is not listed (names compared exactly),
      in their order. */
  lemma {:induction false} WithoutNamesExact(list: seq<SimpleUser>, names: seq<string>)
    ensures forall u :: u in WithoutNames(list, names) <==> u in list && u.name !in names
    ensures Subsequence(WithoutNames(list, names), list)
  {
    if list != [] {
      WithoutNamesExact(list[1..], names);
      assert forall u :: u in list <==> u == list[0] || u in list[1..];
      var rest := WithoutNames(list[1..], names);
      if list[0].name !in names {
        assert ([list[0]] + rest)[1..] == rest;
      } else {
        assert [] + rest == rest;
        SubsequenceDropHead(rest, list);
      }
    }
  }

  /** Removing the same names twice removes nothing more. */
  lemma {:induction false} WithoutNamesIdempotent(list: seq<SimpleUser>, names: seq<string>)
    ensures WithoutNames(WithoutNames(list, names), names) == WithoutNames(list, names)
  {
    if list != [] {
      WithoutNamesIdempotent(list[1..], names);
      var rest := WithoutNames(list[1..], names);
      if list[0].name !in names {
        assert ([list[0]] + rest)[1..] == rest;
      } else {
        assert [] + rest == rest;
      }
    }
  }

  /** The plugin's mirrors of the two "whitelist enabled" flags and the settings change
      handler's reaction to one change: a flag value on one node that differs from the
      mirror of the other side updates that mirror and is pushed to the other node;
      anything else pushes an empty map. */
  function FlagSync(mca: bool, mcm: bool, node: string, value: SettingValue)
    : (bool, bool, map<string, SettingValue>)
  {
    if node == PluginFlagNode && value.Flag? && mcm != value.enabled then
      (mca, value.enabled, map[HostFlagNode := value])
    else if node == HostFlagNode && value.Flag? && mca != value.enabled then
      (value.enabled, mcm, map[PluginFlagNode := value])
    else (mca, mcm, map[])
  }

  /** A change of the plugin's flag to a value the server side does not have yet is pushed
      to the server's flag and remembered; the same value again pushes nothing. */
  lemma PluginFlagChange(mca: bool, mcm: bool, b: bool)
    ensures mcm != b ==> FlagSync(mca, mcm, PluginFlagNode, Flag(b)) == (mca, b, map[HostFlagNode := Flag(b)])
    ensures mcm == b ==> FlagSync(mca, mcm, PluginFlagNode, Flag(b)) == (mca, mcm, map[])
  {
  }

  /** Symmetrically for a change of the server's flag. */
  lemma HostFlagChange(mca: bool, mcm: bool, b: bool)
    ensures mca != b ==> FlagSync(mca, mcm, HostFlagNode, Flag(b)) == (b, mcm, map[PluginFlagNode := Flag(b)])
    ensures mca == b ==> FlagSync(mca, mcm, HostFlagNode, Flag(b)) == (mca, mcm, map[])
  {
  }

  /** Any other node, or a value that is not a flag, changes nothing and pushes nothing. */
  lemma OtherChangesIgnored(mca: bool, mcm: bool, node: string, value: SettingValue)
    requires (node != PluginFlagNode && node != HostFlagNode) || !value.Flag?
    ensures FlagSync(mca, mcm, node, value) == (mca, mcm, map[])
  {
  }

  /** The node a flag change is echoed to. */
  function Partner(node: string): string
  {
    if node == PluginFlagNode then HostFlagNode else PluginFlagNode
  }

  /** Feeding every push back as the next change event, the echo dies out by the third
      event whatever the mirrors held; once a change has been pushed, both mirrors hold
      the new value when it dies out. */
  lemma EchoSettles(mca: bool, mcm: bool, node: string, b: bool)
    requires node == PluginFlagNode || node == HostFlagNode
    ensures var (a1, c1, p1) := FlagSync(mca, mcm, node, Flag(b));
      var (a2, c2, p2) := FlagSync(a1, c1, Partner(node), Flag(b));
      var (a3, c3, p3) := FlagSync(a2, c2, node, Flag(b));
      && (p1 == map[] || p1 == map[Partner(node) := Flag(b)])
      && (p1 == map[] || p2 == map[] || p3 == map[])
      && (p1 != map[] ==> a3 == b && c3 == b)
  {
  }

  /** The plugin's whitelist settings as a call finds them: the configured user names and
      the prefix that marks a Geyser (Bedrock) name. The panel can change both at any
      time, so every call reads them afresh. */
  datatype WhitelistSettings = WhitelistSettings(users: seq<string>, geyserPrefix: string)

  /** Everything the whitelist manager holds, and the records of what it did. */
  datatype WhitelistState = WhitelistState(
    whitelist: seq<SimpleUser>,
    file: StoredList,
    mca: bool,
    mcm: bool,
    refreshing: bool,
    adding: bool,
    setting: bool,
    pushes: seq<map<string, SettingValue>>,
    console: seq<string>,
    tasks: seq<TaskEvent>,
    notWhitelisted: seq<(string, string)>)

  /** `GetWhitelistNames`. */
  function WhitelistNames(s: WhitelistState): seq<string>
  {
    Names(s.whitelist)
  }

  /** `ReloadSettings`: "whitelist reload" goes to the console only while the server is
      ready, and the list of names is always pushed. */
  function Reloaded(s: WhitelistState, app: AppState): WhitelistState
  {
    s.(console := s.console + (if app == Ready then ["whitelist reload"] else []),
       pushes := s.pushes + [map[UsersNode := NameList(WhitelistNames(s))]])
  }

  /** The whitelist replaced by `list`, written to the file, and the settings reloaded. */
  function Saved(s: WhitelistState, list: seq<SimpleUser>, app: AppState): WhitelistState
  {
    Reloaded(s.(whitelist := list, file := WriteWhitelist(s.file, list)), app)
  }

  lemma ReloadWritesConsoleOnlyWhenReady(s: WhitelistState, app: AppState)
    ensures Reloaded(s, app).console != s.console <==> app == Ready
    ensures Reloaded(s, app).pushes == s.pushes + [map[UsersNode := NameList(Names(s.whitelist))]]
  {
    if app == Ready {
      assert |Reloaded(s, app).console| == |s.console| + 1;
    }
  }

  /** `RefreshWhitelist`. */
  function RefreshStep(s: WhitelistState): (WhitelistState, Outcome<()>)
  {
    if s.refreshing then (s, Returned(()))
    else
      var started := s.(refreshing := true, tasks := s.tasks + [TaskStarted(RefreshTaskName)]);
      match ReadWhitelist(s.file)
      case Raised => (started, Raised)
      case Returned(list) =>
        (started.(whitelist := list, refreshing := false,
                  tasks := started.tasks + [TaskEnded(RefreshTaskName)]), Returned(()))
  }

  /** `AddUsersToWhitelist`, as written: the latch is set before the lookup and cleared
      only after a lookup that did not raise. */
  function AddStep(s: WhitelistState, b: Backends, config: WhitelistSettings, users: seq<string>,
                   app: AppState): (WhitelistState, Outcome<()>)
  {
    if s.adding then (s, Returned(()))
    else
      var started := s.(adding := true, tasks := s.tasks + [TaskStarted(AddTaskName)]);
      AddFromLookup(started, Resolve(b, users, config.geyserPrefix), app)
  }

  /** The part of `AddUsersToWhitelist` once the names have been looked up. */
  function AddFromLookup(started: WhitelistState, found: Outcome<seq<SimpleUser>>, app: AppState)
    : (WhitelistState, Outcome<()>)
  {
    match found
    case Raised => (started, Raised)
    case Returned(list) =>
      var done := Saved(started, started.whitelist + list, app);
      (done.(adding := false, tasks := done.tasks + [TaskEnded(AddTaskName)]), Returned(()))
  }

  /** `AddUsersToWhitelist` with the latch released on every exit, as a `try`/`finally`
      around the lookup would do. */
  function AddStepReleasing(s: WhitelistState, b: Backends, config: WhitelistSettings,
                            users: seq<string>, app: AppState): (WhitelistState, Outcome<()>)
  {
    match AddStep(s, b, config, users, app)
    case (t, Raised) => (t.(adding := false, tasks := t.tasks + [TaskFailed(AddTaskName, "")]), Raised)
    case done => done
  }

  /** `RemoveUsersFromWhitelist`. */
  function RemoveStep(s: WhitelistState, users: seq<string>, app: AppState): WhitelistState
  {
    Saved(s, WithoutNames(s.whitelist, users), app)
  }

  /** `SetWhitelist`: with no list given, the configured names are used; while the server
      is busy the list is only re-read from the file and the panel task ends as failed. */
  function SetStep(s: WhitelistState, b: Backends, config: WhitelistSettings,
                   users: Option<seq<string>>, app: AppState): (WhitelistState, Outcome<()>)
  {
    if s.setting then (s, Returned(()))
    else
      var started := s.(setting := true, tasks := s.tasks + [TaskStarted(SetTaskName)]);
      if app == Busy then SetWhileBusy(started)
      else SetFromLookup(started, Resolve(b, users.GetOr(config.users), config.geyserPrefix), app)
  }

  /** The busy branch of `SetWhitelist`: the list is re-read and the panel task fails. */
  function SetWhileBusy(started: WhitelistState): (WhitelistState, Outcome<()>)
  {
    match RefreshStep(started)
    case (t, Raised) => (t, Raised)
    case (t, _) =>
      (t.(setting := false, tasks := t.tasks + [TaskFailed(SetTaskName, NotReadyReason)]),
       Returned(()))
  }

  /** The ready or stopped branch of `SetWhitelist`: the list becomes the lookup's result. */
  function SetFromLookup(started: WhitelistState, found: Outcome<seq<SimpleUser>>, app: AppState)
    : (WhitelistState, Outcome<()>)
  {
    match found
    case Raised => (started, Raised)
    case Returned(list) =>
      var done := Saved(started, list, app);
      (done.(setting := false, tasks := done.tasks + [TaskEnded(SetTaskName)]), Returned(()))
  }

  /** A call made while its operation's latch is set returns at once and changes nothing. */
  lemma LatchedCallsChangeNothing(s: WhitelistState, b: Backends, config: WhitelistSettings,
                                  users: seq<string>, given: Option<seq<string>>, app: AppState)
    ensures s.refreshing ==> RefreshStep(s) == (s, Returned(()))
    ensures s.adding ==> AddStep(s, b, config, users, app) == (s, Returned(()))
    ensures s.setting ==> SetStep(s, b, config, given, app) == (s, Returned(()))
  {
  }

  /** A call that returns normally leaves its latch clear (and the other latches as they
      were). */
  lemma LatchesClearedOnReturn(s: WhitelistState, b: Backends, config: WhitelistSettings,
                               users: seq<string>, given: Option<seq<string>>, app: AppState)
    ensures RefreshStep(s).1.Returned? ==> !RefreshStep(s).0.refreshing || s.refreshing
    ensures AddStep(s, b, config, users, app).1.Returned? ==> AddStep(s, b, config, users, app).0.adding == s.adding
    ensures SetStep(s, b, config, given, app).1.Returned? ==>
      SetStep(s, b, config, given, app).0.setting == s.setting
      && SetStep(s, b, config, given, app).0.refreshing == s.refreshing
  {
  }

  /** Adding appends the found pairs after the existing entries, without removing
      duplicates; each appended pair is a name that was asked for, with a non-empty
      identifier. */
  lemma AddAppends(s: WhitelistState, b: Backends, config: WhitelistSettings, users: seq<string>,
                    app: AppState)
    requires !s.adding && AddStep(s, b, config, users, app).1.Returned?
    ensures var t := AddStep(s, b, config, users, app).0;
      && Resolve(b, users, config.geyserPrefix).Returned?
      && t.whitelist == s.whitelist + Resolve(b, users, config.geyserPrefix).value
      && t.whitelist[..|s.whitelist|] == s.whitelist
      && Subsequence(Names(t.whitelist[|s.whitelist|..]), users)
  {
    var found := Resolve(b, users, config.geyserPrefix).value;
    ResolveSound(b, users, config.geyserPrefix);
    assert (s.whitelist + found)[|s.whitelist|..] == found;
  }

  /** Setting the list: while the server is busy the list is only re-read from the file
      (or left alone when a refresh is already running) and the panel task fails;
      otherwise the list becomes exactly the pairs found for the given names, or for the
      configured names when none are given. */
  lemma SetReplaces(s: WhitelistState, b: Backends, config: WhitelistSettings,
                     users: Option<seq<string>>, app: AppState)
    requires !s.setting
    ensures var (t, r) := SetStep(s, b, config, users, app);
      var found := Resolve(b, users.GetOr(config.users), config.geyserPrefix);
      && (app == Busy && !s.refreshing ==> (r.Returned? <==> ReadWhitelist(s.file).Returned?))
      && (app == Busy && !s.refreshing && r.Returned? ==>
            t.whitelist == ReadWhitelist(s.file).value
            && t.tasks[|t.tasks| - 1] == TaskFailed(SetTaskName, NotReadyReason))
      && (app == Busy && s.refreshing ==>
            r.Returned? && t.whitelist == s.whitelist
            && t.tasks[|t.tasks| - 1] == TaskFailed(SetTaskName, NotReadyReason))
      && (app != Busy ==> (r.Returned? <==> found.Returned?))
      && (app != Busy && r.Returned? ==>
            t.whitelist == found.value && t.tasks[|t.tasks| - 1] == TaskEnded(SetTaskName))
  {
  }

  /** Removal deletes exactly the entries with a listed name, keeps the rest in order,
      and doing it twice is the same as doing it once. */
  lemma RemoveExact(s: WhitelistState, users: seq<string>, app: AppState)
    ensures var t := RemoveStep(s, users, app);
      && (forall u :: u in t.whitelist <==> u in s.whitelist && u.name !in users)
      && Subsequence(t.whitelist, s.whitelist)
      && RemoveStep(t, users, app).whitelist == t.whitelist
  {
    WithoutNamesExact(s.whitelist, users);
    WithoutNamesIdempotent(s.whitelist, users);
  }

  /** The latch stays set when the lookup raises, so every later add (with any web
      service answers) is silently ignored. */
  lemma StuckAddLatch(s: WhitelistState, failing: Backends, config: WhitelistSettings,
                      users: seq<string>, app: AppState, later: Backends,
                      laterConfig: WhitelistSettings, more: seq<string>)
    requires !s.adding && Resolve(failing, users, config.geyserPrefix).Raised?
    ensures var t := AddStep(s, failing, config, users, app).0;
      t.adding && AddStep(t, later, laterConfig, more, app) == (t, Returned(()))
  {
  }

  /** With the latch released on every exit, the latch is clear after every call that
      started with it clear. */
  lemma ReleasingClearsLatch(s: WhitelistState, b: Backends, config: WhitelistSettings,
                             users: seq<string>, app: AppState)
    requires !s.adding
    ensures !AddStepReleasing(s, b, config, users, app).0.adding
    ensures AddStepReleasing(s, b, config, users, app).1.Returned? ==>
      AddStepReleasing(s, b, config, users, app) == AddStep(s, b, config, users, app)
  {
  }

  /** The example: one Mojang request that throws leaves the add latch stuck. */
  lemma StuckAddLatchExample(s: WhitelistState, users: seq<string>, app: AppState)
    requires !s.adding
    ensures var failing := Backends(n => NotOk, n => Threw);
      AddStep(s, failing, WhitelistSettings(users, "."), ["Steve"], app).0.adding
  {
    var failing := Backends(n => NotOk, n => Threw);
    assert "Steve"[..1][0] == 'S' && "."[0] == '.';
    ResolveRaises(failing, ["Steve"], ".");
    assert GetUserID(failing, ["Steve"][0], ".").Raised?;
  }

  /** The whitelist manager. */
  class Whitelist {
    var whitelist: seq<SimpleUser>
    var file: StoredList
    var mca: bool
    var mcm: bool
    var refreshing: bool
    var adding: bool
    var setting: bool
    var pushes: seq<map<string, SettingValue>>
    var console: seq<string>
    var tasks: seq<TaskEvent>
    var notWhitelisted: seq<(string, string)>
    /** The names the constructor assigns straight to the configured users; this is not a
        settings push. */
    var assignedUsers: seq<string>

    function State(): WhitelistState
      reads this
    {
      WhitelistState(whitelist, file, mca, mcm, refreshing, adding, setting, pushes, console,
                     tasks, notWhitelisted)
    }

    /** The constructor reads the file (a read that raises leaves no object), assigns its
        names to the configured users, and starts both mirrors at the plugin's "enabled"
        setting. */
    constructor (stored: StoredList, enabled: bool)
      requires ReadWhitelist(stored).Returned?
      ensures whitelist == ReadWhitelist(stored).value && file == stored
      ensures assignedUsers == Names(whitelist) && pushes == []
      ensures mca == enabled && mcm == enabled
      ensures !refreshing && !adding && !setting
      ensures console == [] && tasks == [] && notWhitelisted == []
    {
      whitelist := ReadWhitelist(stored).value;
      file := stored;
      assignedUsers := Names(ReadWhitelist(stored).value);
      pushes := [];
      mca := enabled;
      mcm := enabled;
      refreshing, adding, setting := false, false, false;
      console, tasks, notWhitelisted := [], [], [];
    }

    /** `Settings_SettingModified`: the settings map is pushed whether or not it is empty. */
    method SettingModified(node: string, value: SettingValue)
      modifies this`mca, this`mcm, this`pushes
      ensures var (a, c, push) := FlagSync(old(mca), old(mcm), node, value);
        mca == a && mcm == c && pushes == old(pushes) + [push]
    {
      var push: map<string, SettingValue> := map[];
      if node == PluginFlagNode {
        if value.Flag? && mcm != value.enabled {
          mcm := value.enabled;
          push := push[HostFlagNode := value];
        }
      } else if node == HostFlagNode {
        if value.Flag? && mca != value.enabled {
          mca := value.enabled;
          push := push[PluginFlagNode := value];
        }
      }
      pushes := pushes + [push];
    }

    /** `ReloadSettings`. */
    method ReloadSettings(app: AppState)
      modifies this`console, this`pushes
      ensures State() == Reloaded(old(State()), app)
    {
      if app == Ready {
        console := console + ["whitelist reload"];
      }
      pushes := pushes + [map[UsersNode := NameList(Names(whitelist))]];
    }

    method WriteWhitelistJSON()
      modifies this`file
      ensures file == WriteWhitelist(old(file), whitelist)
    {
      if !file.NoHandle? {
        file := Entries(ToEntries(whitelist));
      }
    }

    /** The list becomes `list`, is written to `whitelist.json` and is reloaded. */
    method SaveWhitelist(list: seq<SimpleUser>, app: AppState)
      modifies this`whitelist, this`file, this`console, this`pushes
      ensures State() == Saved(old(State()), list, app)
    {
      whitelist := list;
      WriteWhitelistJSON();
      ReloadSettings(app);
    }

    /** `RefreshWhitelist`. */
    method RefreshWhitelist() returns (r: Outcome<()>)
      modifies this`whitelist, this`refreshing, this`tasks
      ensures (State(), r) == RefreshStep(old(State()))
    {
      if refreshing {
        return Returned(());
      }
      refreshing := true;
      tasks := tasks + [TaskStarted(RefreshTaskName)];
      var read := ReadWhitelist(file);
      if read.Raised? {
        return Raised;
      }
      whitelist := read.value;
      refreshing := false;
      tasks := tasks + [TaskEnded(RefreshTaskName)];
      r := Returned(());
    }

    /** `AddUsersToWhitelist`. */
    method AddUsersToWhitelist(b: Backends, config: WhitelistSettings, users: seq<string>,
                               app: AppState) returns (r: Outcome<()>)
      modifies this`whitelist, this`file, this`adding, this`tasks, this`console, this`pushes
      ensures (State(), r) == AddStep(old(State()), b, config, users, app)
    {
      if adding {
        return Returned(());
      }
      adding := true;
      tasks := tasks + [TaskStarted(AddTaskName)];
      var found := LookupUsers(b, users, config.geyserPrefix);
      r := AddFound(found, app);
    }

    /** The part of `AddUsersToWhitelist` once the names have been looked up. */
    method AddFound(found: Outcome<seq<SimpleUser>>, app: AppState) returns (r: Outcome<()>)
      modifies this`whitelist, this`file, this`adding, this`tasks, this`console, this`pushes
      ensures (State(), r) == AddFromLookup(old(State()), found, app)
    {
      if found.Raised? {
        return Raised;
      }
      SaveWhitelist(whitelist + found.value, app);
      adding := false;
      tasks := tasks + [TaskEnded(AddTaskName)];
      r := Returned(());
    }

    /** `RemoveUsersFromWhitelist`. */
    method RemoveUsersFromWhitelist(users: seq<string>, app: AppState)
      modifies this`whitelist, this`file, this`console, this`pushes
      ensures State() == RemoveStep(old(State()), users, app)
    {
      whitelist := WithoutNames(whitelist, users);
      WriteWhitelistJSON();
      ReloadSettings(app);
    }

    /** `SetWhitelist`; `users` is `None` when the caller passes no list. */
    method SetWhitelist(b: Backends, config: WhitelistSettings, users: Option<seq<string>>,
                        app: AppState) returns (r: Outcome<()>)
      modifies this`whitelist, this`file, this`refreshing, this`setting, this`tasks,
               this`console, this`pushes
      ensures (State(), r) == SetStep(old(State()), b, config, users, app)
    {
      if setting {
        return Returned(());
      }
      setting := true;
      tasks := tasks + [TaskStarted(SetTaskName)];
      if app == Busy {
        r := SetWhileNotReady();
        return;
      }
      var found := LookupUsers(b, users.GetOr(config.users), config.geyserPrefix);
      r := SetToFound(found, app);
    }

    /** The part of `SetWhitelist` for a server that is neither running nor stopped. */
    method SetWhileNotReady() returns (r: Outcome<()>)
      modifies this`whitelist, this`file, this`refreshing, this`setting, this`tasks,
               this`console, this`pushes
      ensures (State(), r) == SetWhileBusy(old(State()))
    {
      var refreshed := RefreshWhitelist();
      if refreshed.Raised? {
        return Raised;
      }
      setting := false;
      tasks := tasks + [TaskFailed(SetTaskName, NotReadyReason)];
      r := Returned(());
    }

    /** The part of `SetWhitelist` once the names have been looked up. */
    method SetToFound(found: Outcome<seq<SimpleUser>>, app: AppState) returns (r: Outcome<()>)
      modifies this`whitelist, this`file, this`setting, this`tasks, this`console, this`pushes
      ensures (State(), r) == SetFromLookup(old(State()), found, app)
    {
      if found.Raised? {
        return Raised;
      }
      SaveWhitelist(found.value, app);
      setting := false;
      tasks := tasks + [TaskEnded(SetTaskName)];
      r := Returned(());
    }

    /** `WhiteListEnable`: the console reported the whitelist on. */
    method WhiteListEnable() returns (handled: bool)
      modifies this`mca, this`pushes
      ensures mca && pushes == old(pushes) + [map[PluginFlagNode := Flag(true)]]
      ensures !handled
    {
      mca := true;
      pushes := pushes + [map[PluginFlagNode := Flag(true)]];
      handled := false;
    }

    /** `WhiteListDisable`: the console reported the whitelist off. */
    method WhiteListDisable() returns (handled: bool)
      modifies this`mca, this`pushes
      ensures !mca && pushes == old(pushes) + [map[PluginFlagNode := Flag(false)]]
      ensures !handled
    {
      mca := false;
      pushes := pushes + [map[PluginFlagNode := Flag(false)]];
      handled := false;
    }

    /** `WhiteListKick`: a player was refused; the name and address captured from the log
        line are passed on. */
    method WhiteListKick(name: string, address: string) returns (handled: bool)
      modifies this`notWhitelisted
      ensures notWhitelisted == old(notWhitelisted) + [(name, address)]
      ensures !handled
    {
      notWhitelisted := notWhitelisted + [(name, address)];
      handled := false;
    }
  }

}
