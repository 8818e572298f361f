/**
 * The desktop side's handling of the assistant's hook configuration: routing the
 * hook server's requests to lifecycle events, recognising this tool's hook
 * entries by a marker in their command, merging them into the `hooks` object of
 * the settings file, removing them again, and deciding whether they are
 * installed. JSON values are taken after parsing.
 */
module HookSettings {
  import opened Wrappers

  // ------------------------------------------------------------ JSON values

  /** A parsed JSON value. Numbers are integers here; objects are maps, so key
      order is not modelled. */
  datatype Json =
    | Null
    | Bool(b: bool)
    | Num(n: int)
    | Str(s: string)
    | Arr(items: seq<Json>)
    | Obj(fields: map<string, Json>)

  /** `Value::get(key)`: the field of an object, and nothing for any other value. */
  function Get(v: Json, key: string): (r: Option<Json>)
    ensures r.Some? <==> v.Obj? && key in v.fields
    ensures r.Some? ==> r.value == v.fields[key]
  {
    if v.Obj? && key in v.fields then Some(v.fields[key]) else None
  }

  /** `sub` occurs in `s` starting at index `i`. */
  predicate OccursAt(s: string, sub: string, i: int)
  {
    0 <= i <= |s| - |sub| && s[i..i + |sub|] == sub
  }

  /** `str::contains` */
  predicate Contains(s: string, sub: string)
  {
    exists i | 0 <= i <= |s| - |sub| :: OccursAt(s, sub, i)
  }

  lemma ContainsMiddle(prefix: string, sub: string, suffix: string)
    ensures Contains(prefix + sub + suffix, sub)
  {
    var s := prefix + sub + suffix;
    assert s[|prefix|..|prefix| + |sub|] == sub;
    assert OccursAt(s, sub, |prefix|);
  }

  // ------------------------------------------------------------ routing

  const HookServerPort: nat := 3456
  const HookMarker: string := "claude-commander"

  /** The lifecycle event for a request to the hook server, given its path and its
      body as parsed JSON (`None` when the body does not parse). */
  function Route(url: string, body: Option<Json>): (event: Option<string>)
    ensures url == "/hook/prompt-submit" ==> event == Some("prompt_submit")
    ensures url == "/hook/stop" ==> event == Some("stop")
    ensures url == "/hook/tool-failure" ==>
      (event == Some("interrupt") <==> body.Some? && Get(body.value, "is_interrupt") == Some(Bool(true)))
    ensures url == "/hook/tool-failure" && event.Some? ==> event == Some("interrupt")
    ensures url !in {"/hook/prompt-submit", "/hook/stop", "/hook/tool-failure"} ==> event == None
  {
    if url == "/hook/prompt-submit" then Some("prompt_submit")
    else if url == "/hook/stop" then Some("stop")
    else if url == "/hook/tool-failure" then
      match body
      case None => None
      case Some(json) =>
        var isInterrupt := match Get(json, "is_interrupt")
          case Some(Bool(b)) => b
          case _ => false;
        if isInterrupt then Some("interrupt") else None
    else None
  }

  // ------------------------------------------------------------ our entries

  /** The decimal digits of `n`, as `format!` writes them. */
  function Decimal(n: nat): (s: string)
    ensures |s| >= 1
    ensures forall i :: 0 <= i < |s| ==> '0' <= s[i] <= '9'
    decreases n
  {
    var digit := ['0' + (n % 10) as char];
    if n < 10 then digit else Decimal(n / 10) + digit
  }

  /** The digits name the number back. */
  function DigitsValue(s: string): int
  {
    if s == [] then 0 else DigitsValue(s[..|s| - 1]) * 10 + (s[|s| - 1] as int - '0' as int)
  }

  lemma {:induction false} DecimalRoundTrip(n: nat)
    ensures DigitsValue(Decimal(n)) == n
    decreases n
  {
    var digit := ['0' + (n % 10) as char];
    if n >= 10 {
      DecimalRoundTrip(n / 10);
      var s := Decimal(n / 10) + digit;
      assert s[..|s| - 1] == Decimal(n / 10);
    }
  }

  lemma PortDigits()
    ensures Decimal(HookServerPort) == "3456"
  {
    assert Decimal(3) == "3";
    assert Decimal(34) == "34";
    assert Decimal(345) == "345";
  }

  const ServerUrl: string := "http://localhost:" + Decimal(HookServerPort)

  /** A `curl` POST to `path` on the hook server, with the marker as a trailing
      shell comment. */
  function CurlCommand(options: string, path: string): string
  {
    ("curl -s -X POST " + options) + (ServerUrl + path) + (" # " + HookMarker)
  }

  /** The command names the server URL with the path, and carries the marker. */
  lemma CurlCommandParts(options: string, path: string)
    ensures Contains(CurlCommand(options, path), ServerUrl + path)
    ensures Contains(CurlCommand(options, path), HookMarker)
  {
    var head := "curl -s -X POST " + options;
    ContainsMiddle(head, ServerUrl + path, " # " + HookMarker);
    var front := head + (ServerUrl + path) + " # ";
    assert CurlCommand(options, path) == front + HookMarker + [];
    ContainsMiddle(front, HookMarker, []);
  }

  const PromptSubmitCommand: string := CurlCommand("", "/hook/prompt-submit")
  const StopCommand: string := CurlCommand("", "/hook/stop")
  const ToolFailureCommand: string :=
    CurlCommand("-H \"Content-Type: application/json\" -d @- ", "/hook/tool-failure")

  /** The fields of one command hook with a five-second timeout. */
  function CommandHook(command: string): map<string, Json>
  {
    map["type" := Str("command"), "command" := Str(command), "timeout" := Num(5)]
  }

  /** `make_hook_entry_sync`: an entry holding one command hook. */
  function MakeHookEntrySync(command: string): (entry: Json)
    ensures EntryMarked(entry) <==> Contains(command, HookMarker)
  {
    var entry := Obj(map["hooks" := Arr([Obj(CommandHook(command))])]);
    assert Arr([Obj(CommandHook(command))]).items[0] == Obj(CommandHook(command));
    entry
  }

  /** `make_hook_entry`: the same entry, with the hook marked `"async": true`. */
  function MakeHookEntry(command: string): (entry: Json)
    ensures EntryMarked(entry) <==> Contains(command, HookMarker)
  {
    var hook := Obj(CommandHook(command)["async" := Bool(true)]);
    var entry := Obj(map["hooks" := Arr([hook])]);
    assert Arr([hook]).items[0] == hook;
    entry
  }

  /** The two kinds of entry differ only in the `async` field of their hook. */
  lemma EntriesDifferOnlyByAsync(command: string)
    ensures MakeHookEntrySync(command).fields.Keys == MakeHookEntry(command).fields.Keys == {"hooks"}
    ensures var sync := MakeHookEntrySync(command).fields["hooks"];
      var async := MakeHookEntry(command).fields["hooks"];
      && sync.Arr? && async.Arr? && |sync.items| == |async.items| == 1
      && sync.items[0].Obj? && async.items[0].Obj?
      && async.items[0].fields == sync.items[0].fields["async" := Bool(true)]
      && "async" !in sync.items[0].fields
  {
  }

  /** The event names and entries `setup_hooks` installs, in order. */
  const OurHooks: seq<(string, Json)> := [
    ("UserPromptSubmit", MakeHookEntry(PromptSubmitCommand)),
    ("Stop", MakeHookEntry(StopCommand)),
    ("PostToolUseFailure", MakeHookEntrySync(ToolFailureCommand))
  ]

  /** Every entry this tool installs carries the marker. */
  lemma OurEntriesMarked()
    ensures EntryMarked(OurHooks[0].1) && EntryMarked(OurHooks[1].1) && EntryMarked(OurHooks[2].1)
  {
    CurlCommandParts("", "/hook/prompt-submit");
    CurlCommandParts("", "/hook/stop");
    CurlCommandParts("-H \"Content-Type: application/json\" -d @- ", "/hook/tool-failure");
  }

  /** Each installed command posts to the server's port, and the path it posts to
      routes to the lifecycle event the bridge expects. */
  lemma OurCommandsReachTheServer()
    ensures ServerUrl == "http://localhost:3456"
    ensures Contains(PromptSubmitCommand, ServerUrl + "/hook/prompt-submit")
      && Route("/hook/prompt-submit", None) == Some("prompt_submit")
    ensures Contains(StopCommand, ServerUrl + "/hook/stop") && Route("/hook/stop", None) == Some("stop")
    ensures Contains(ToolFailureCommand, ServerUrl + "/hook/tool-failure")
      && Route("/hook/tool-failure", Some(Obj(map["is_interrupt" := Bool(true)]))) == Some("interrupt")
  {
    PortDigits();
    CurlCommandParts("", "/hook/prompt-submit");
    CurlCommandParts("", "/hook/stop");
    CurlCommandParts("-H \"Content-Type: application/json\" -d @- ", "/hook/tool-failure");
  }

  // ------------------------------------------------------------ recognising our hooks

  /** A hook whose `command` is a string holding the marker. */
  predicate HookMarked(hook: Json)
    ensures HookMarked(hook) <==>
      && hook.Obj? && "command" in hook.fields && hook.fields["command"].Str?
      && Contains(hook.fields["command"].s, HookMarker)
  {
    match Get(hook, "command")
    case Some(Str(command)) => Contains(command, HookMarker)
    case _ => false
  }

  /** An entry whose `hooks` array holds a marked hook. */
  predicate EntryMarked(entry: Json)
    ensures EntryMarked(entry) ==>
      entry.Obj? && "hooks" in entry.fields && entry.fields["hooks"].Arr? && |entry.fields["hooks"].items| > 0
  {
    match Get(entry, "hooks")
    case Some(Arr(inner)) => exists j :: 0 <= j < |inner| && HookMarked(inner[j])
    case _ => false
  }

  /** What `has_our_hooks` decides: an array with a marked entry. */
  predicate Marked(hooksArray: Json)
    ensures Marked(hooksArray) ==> hooksArray.Arr? && |hooksArray.items| > 0
  {
    hooksArray.Arr? && exists i :: 0 <= i < |hooksArray.items| && EntryMarked(hooksArray.items[i])
  }

  /** `has_our_hooks`: search the entries, and each entry's hooks, for the marker. */
  method HasOurHooks(hooksArray: Json) returns (found: bool)
    ensures found <==> Marked(hooksArray)
  {
    if !hooksArray.Arr? {
      return false;
    }
    var arr := hooksArray.items;
    var i := 0;
    while i < |arr|
      invariant 0 <= i <= |arr|
      invariant forall k :: 0 <= k < i ==> !EntryMarked(arr[k])
    {
      var innerHooks := Get(arr[i], "hooks");
      if innerHooks.Some? && innerHooks.value.Arr? {
        var innerArr := innerHooks.value.items;
        var j := 0;
        while j < |innerArr|
          invariant 0 <= j <= |innerArr|
          invariant forall k :: 0 <= k < j ==> !HookMarked(innerArr[k])
        {
          var command := Get(innerArr[j], "command");
          if command.Some? && command.value.Str? && Contains(command.value.s, HookMarker) {
            assert HookMarked(innerArr[j]);
            assert EntryMarked(arr[i]);
            return true;
          }
          j := j + 1;
        }
      }
      i := i + 1;
    }
    return false;
  }

  // ------------------------------------------------------------ is it installed?

  const ConfiguredEvents: seq<string> := ["UserPromptSubmit", "Stop", "PostToolUseFailure"]

  /** What `check_hooks_configured` decides for parsed settings: one of the three
      events this tool installs holds a marked entry. Only an object whose `hooks`
      is an object can qualify. */
  predicate HooksConfigured(settings: Json)
    ensures HooksConfigured(settings) ==>
      settings.Obj? && "hooks" in settings.fields && settings.fields["hooks"].Obj?
    ensures HooksConfigured(settings) <==>
      Get(settings, "hooks").Some? &&
      exists name :: name in ConfiguredEvents && EventMarked(Get(settings, "hooks").value, name)
  {
    match Get(settings, "hooks")
    case None => false
    case Some(hooks) =>
      exists k :: 0 <= k < |ConfiguredEvents| && EventMarked(hooks, ConfiguredEvents[k])
  }

  predicate EventMarked(hooks: Json, name: string)
  {
    Get(hooks, name).Some? && Marked(Get(hooks, name).value)
  }

  /** The decision of `check_hooks_configured`, once the settings are read. */
  method CheckHooksConfigured(settings: Json) returns (configured: bool)
    ensures configured <==> HooksConfigured(settings)
  {
    var hooks := Get(settings, "hooks");
    if hooks.Some? {
      var k := 0;
      while k < |ConfiguredEvents|
        invariant 0 <= k <= |ConfiguredEvents|
        invariant forall m :: 0 <= m < k ==> !EventMarked(hooks.value, ConfiguredEvents[m])
      {
        var eventHooks := Get(hooks.value, ConfiguredEvents[k]);
        if eventHooks.Some? {
          var found := HasOurHooks(eventHooks.value);
          if found {
            return true;
          }
        }
        k := k + 1;
      }
    }
    return false;
  }

  // ------------------------------------------------------------ setup

  /** One event's value after the merge: created as `[entry]` when absent, the entry
      appended to an array without our marker, and anything else left alone. */
  function MergeValue(existing: Option<Json>, entry: Json): (v: Json)
    ensures existing.None? ==> v == Arr([entry])
    ensures existing.Some? && existing.value.Arr? && !Marked(existing.value) ==>
      v == Arr(existing.value.items + [entry])
    ensures existing.Some? && (!existing.value.Arr? || Marked(existing.value)) ==> v == existing.value
  {
    match existing
    case None => Arr([entry])
    case Some(value) => if !Marked(value) && value.Arr? then Arr(value.items + [entry]) else value
  }

  function MergeEvent(hooks: map<string, Json>, name: string, entry: Json): map<string, Json>
  {
    hooks[name := MergeValue(Get(Obj(hooks), name), entry)]
  }

  /** The event names of a list of entries. */
  function EventNames(ours: seq<(string, Json)>): set<string>
    decreases |ours|
  {
    if ours == [] then {} else EventNames(ours[..|ours| - 1]) + {ours[|ours| - 1].0}
  }

  lemma EventNamesOfThree(ours: seq<(string, Json)>)
    requires |ours| == 3
    ensures EventNames(ours) == {ours[0].0, ours[1].0, ours[2].0}
  {
    var one, two := ours[..1], ours[..2];
    assert one[..|one| - 1] == [] && one[|one| - 1] == ours[0];
    assert two[..|two| - 1] == one && two[|two| - 1] == ours[1];
    assert ours[..|ours| - 1] == two;
    assert EventNames(one) == {ours[0].0};
    assert EventNames(two) == {ours[0].0, ours[1].0};
  }

  /** The merge loop of `setup_hooks` over the first `|ours|` entries: it adds
      exactly the events of those entries, and never removes an event. */
  function MergeAll(hooks: map<string, Json>, ours: seq<(string, Json)>): (r: map<string, Json>)
    ensures r.Keys == hooks.Keys + EventNames(ours)
    decreases |ours|
  {
    if ours == [] then hooks
    else
      var last := ours[|ours| - 1];
      MergeEvent(MergeAll(hooks, ours[..|ours| - 1]), last.0, last.1)
  }

  /** What `setup_hooks` does to the settings, or how it fails. */
  datatype SetupResult = Written(settings: Json) | Failed(message: string) | Panicked

  /** `setup_hooks` merging the entries `ours` into the settings: a settings value
      that is not an object panics when unwrapped, and a `hooks` value that is not
      an object is an error. */
  function SetupWith(settings: Json, ours: seq<(string, Json)>): (r: SetupResult)
    ensures r == Panicked <==> !settings.Obj?
    ensures r.Failed? <==> settings.Obj? && "hooks" in settings.fields && !settings.fields["hooks"].Obj?
    ensures r.Failed? ==> r.message == "hooks is not an object"
  {
    if !settings.Obj? then Panicked
    else
      var fields := if "hooks" in settings.fields then settings.fields
                    else settings.fields["hooks" := Obj(map[])];
      match fields["hooks"]
      case Obj(hooks) => Written(Obj(fields["hooks" := Obj(MergeAll(hooks, ours))]))
      case _ => Failed("hooks is not an object")
  }

  /** What `setup_hooks` writes, with this tool's entries: on success, the same
      top-level keys plus `hooks`, which is then an object holding our three events. */
  function SetupSettings(settings: Json): (r: SetupResult)
    ensures r.Written? <==> settings.Obj? && ("hooks" in settings.fields ==> settings.fields["hooks"].Obj?)
    ensures r.Written? ==>
      && r.settings.Obj? && r.settings.fields.Keys == settings.fields.Keys + {"hooks"}
      && r.settings.fields["hooks"].Obj?
      && forall name :: name in ConfiguredEvents ==> name in r.settings.fields["hooks"].fields
  {
    EventNamesOfThree(OurHooks);
    SetupWith(settings, OurHooks)
  }

  /** The merge loop of `setup_hooks`: for each event, create it with our entry,
      or append our entry to an array that lacks the marker. */
  method MergeEntries(start: map<string, Json>, ours: seq<(string, Json)>) returns (hooksObj: map<string, Json>)
    ensures hooksObj == MergeAll(start, ours)
  {
    hooksObj := start;
    var i := 0;
    while i < |ours|
      invariant 0 <= i <= |ours|
      invariant hooksObj == MergeAll(start, ours[..i])
    {
      var (eventName, hookEntry) := ours[i];
      MergeAllStep(start, ours, i);
      if eventName in hooksObj {
        var existing := hooksObj[eventName];
        var found := HasOurHooks(existing);
        if !found && existing.Arr? {
          assert MergeValue(Some(existing), hookEntry) == Arr(existing.items + [hookEntry]);
          hooksObj := hooksObj[eventName := Arr(existing.items + [hookEntry])];
        } else {
          MergeEventKeeps(hooksObj, eventName, hookEntry);
        }
      } else {
        assert MergeValue(None, hookEntry) == Arr([hookEntry]);
        hooksObj := hooksObj[eventName := Arr([hookEntry])];
      }
      i := i + 1;
    }
    assert ours[..|ours|] == ours;
  }

  /** Merging into an event that holds our entry, or no array, changes nothing. */
  lemma MergeEventKeeps(hooks: map<string, Json>, name: string, entry: Json)
    requires name in hooks && (Marked(hooks[name]) || !hooks[name].Arr?)
    ensures MergeEvent(hooks, name, entry) == hooks
  {
    assert hooks[name := hooks[name]] == hooks;
  }

  /** Merging one more entry is one more `MergeEvent`. */
  lemma MergeAllStep(hooks: map<string, Json>, ours: seq<(string, Json)>, i: int)
    requires 0 <= i < |ours|
    ensures MergeAll(hooks, ours[..i + 1]) == MergeEvent(MergeAll(hooks, ours[..i]), ours[i].0, ours[i].1)
  {
    assert ours[..i + 1][..i] == ours[..i];
  }

  /** The merge of `setup_hooks`, once the settings are read: insert an empty
      `hooks` object if there is none, then merge each of our entries. Unwrapping a
      settings value that is not an object panics. */
  method SetupHooks(settings: Json) returns (r: SetupResult)
    ensures r == SetupSettings(settings)
  {
    if !settings.Obj? {
      return Panicked;
    }
    var fields := settings.fields;
    if "hooks" !in fields {
      fields := fields["hooks" := Obj(map[])];
    }
    if !fields["hooks"].Obj? {
      return Failed("hooks is not an object");
    }
    var hooksObj := MergeEntries(fields["hooks"].fields, OurHooks);
    return Written(Obj(fields["hooks" := Obj(hooksObj)]));
  }

  /** Three entries for three different events. */
  predicate ThreeDistinct(ours: seq<(string, Json)>)
  {
    |ours| == 3 && ours[0].0 != ours[1].0 && ours[0].0 != ours[2].0 && ours[1].0 != ours[2].0
  }

  /** Entries for the three events `check_hooks_configured` inspects, in its
      order, each carrying the marker. */
  predicate Installs(ours: seq<(string, Json)>)
  {
    ThreeDistinct(ours) && forall i :: 0 <= i < 3 ==> ours[i].0 == ConfiguredEvents[i] && EntryMarked(ours[i].1)
  }

  /** The entries setup installs are such entries. */
  lemma OurHooksShape()
    ensures Installs(OurHooks)
  {
    OurEntriesMarked();
  }

  /** Merging three entries for distinct events gives each event `MergeValue` of its
      old value and leaves every other key as it was. */
  lemma MergeThree(hooks: map<string, Json>, ours: seq<(string, Json)>)
    requires ThreeDistinct(ours)
    ensures MergeAll(hooks, ours) ==
      hooks[ours[0].0 := MergeValue(Get(Obj(hooks), ours[0].0), ours[0].1)]
           [ours[1].0 := MergeValue(Get(Obj(hooks), ours[1].0), ours[1].1)]
           [ours[2].0 := MergeValue(Get(Obj(hooks), ours[2].0), ours[2].1)]
  {
    var one, two := ours[..1], ours[..2];
    assert one[..|one| - 1] == [] && one[|one| - 1] == ours[0];
    assert two[..|two| - 1] == one && two[|two| - 1] == ours[1];
    assert ours[..|ours| - 1] == two;
    assert MergeAll(hooks, []) == hooks;
    var h1 := MergeAll(hooks, one);
    assert h1 == MergeEvent(hooks, ours[0].0, ours[0].1);
    var h2 := MergeAll(hooks, two);
    assert h2 == MergeEvent(h1, ours[1].0, ours[1].1);
    assert Get(Obj(h1), ours[1].0) == Get(Obj(hooks), ours[1].0);
    assert Get(Obj(h2), ours[2].0) == Get(Obj(hooks), ours[2].0);
  }

  /** Merging a marked entry a second time changes nothing. */
  lemma MergeValueIdempotent(existing: Option<Json>, entry: Json)
    requires EntryMarked(entry)
    ensures MergeValue(Some(MergeValue(existing, entry)), entry) == MergeValue(existing, entry)
    ensures Marked(MergeValue(existing, entry)) <==> existing.None? || existing.value.Arr?
  {
    var v := MergeValue(existing, entry);
    if existing.None? {
      assert v.items[0] == entry;
    } else if existing.value.Arr? && !Marked(existing.value) {
      assert v.items[|v.items| - 1] == entry;
    }
  }

  /** Merging the same three marked entries twice is merging them once. */
  lemma MergeThreeIdempotent(hooks: map<string, Json>, ours: seq<(string, Json)>)
    requires ThreeDistinct(ours)
    requires forall i :: 0 <= i < 3 ==> EntryMarked(ours[i].1)
    ensures MergeAll(MergeAll(hooks, ours), ours) == MergeAll(hooks, ours)
  {
    var merged := MergeAll(hooks, ours);
    var twice := MergeAll(merged, ours);
    forall k | k in merged
      ensures twice[k] == merged[k]
    {
      MergeThreeAt(hooks, ours, k);
      MergeThreeAt(merged, ours, k);
      if k == ours[0].0 {
        MergeValueIdempotent(Get(Obj(hooks), k), ours[0].1);
      } else if k == ours[1].0 {
        MergeValueIdempotent(Get(Obj(hooks), k), ours[1].1);
      } else if k == ours[2].0 {
        MergeValueIdempotent(Get(Obj(hooks), k), ours[2].1);
      }
    }
    assert twice.Keys == merged.Keys;
  }

  lemma SetupWithIdempotent(settings: Json, ours: seq<(string, Json)>)
    requires Installs(ours) && SetupWith(settings, ours).Written?
    ensures SetupWith(SetupWith(settings, ours).settings, ours) == SetupWith(settings, ours)
  {
    var fields := if "hooks" in settings.fields then settings.fields
                  else settings.fields["hooks" := Obj(map[])];
    var hooks := fields["hooks"].fields;
    var merged := MergeAll(hooks, ours);
    var out := Obj(fields["hooks" := Obj(merged)]);
    assert SetupWith(settings, ours) == Written(out);
    MergeThreeIdempotent(hooks, ours);
    assert out.fields["hooks" := Obj(MergeAll(merged, ours))] == out.fields;
  }

  /** Running setup on its own output writes the same settings again. */
  lemma SetupIdempotent(settings: Json)
    requires SetupSettings(settings).Written?
    ensures SetupSettings(SetupSettings(settings).settings) == SetupSettings(settings)
  {
    OurHooksShape();
    SetupWithIdempotent(settings, OurHooks);
  }

  lemma SetupWithTouchesOnly(settings: Json, ours: seq<(string, Json)>, key: string, name: string)
    requires Installs(ours) && SetupWith(settings, ours).Written?
    ensures var out := SetupWith(settings, ours).settings;
      && out.Obj? && "hooks" in out.fields && out.fields["hooks"].Obj?
      && (key != "hooks" ==> Get(out, key) == Get(settings, key))
      && (name !in ConfiguredEvents && "hooks" in settings.fields ==>
            Get(out.fields["hooks"], name) == Get(settings.fields["hooks"], name))
  {
    var fields := if "hooks" in settings.fields then settings.fields
                  else settings.fields["hooks" := Obj(map[])];
    MergeThree(fields["hooks"].fields, ours);
  }

  /** Setup leaves every other top-level key and every other event as it was. */
  lemma SetupTouchesOnlyOurEvents(settings: Json, key: string, name: string)
    requires SetupSettings(settings).Written?
    ensures var out := SetupSettings(settings).settings;
      && out.Obj? && "hooks" in out.fields && out.fields["hooks"].Obj?
      && (key != "hooks" ==> Get(out, key) == Get(settings, key))
      && (name !in ConfiguredEvents && "hooks" in settings.fields ==>
            Get(out.fields["hooks"], name) == Get(settings.fields["hooks"], name))
  {
    OurHooksShape();
    SetupWithTouchesOnly(settings, OurHooks, key, name);
  }

  /** After the merge, an event holds our marked entry exactly when it was absent
      or an array before. */
  lemma MergedEventMarked(hooks: map<string, Json>, ours: seq<(string, Json)>, i: int)
    requires ThreeDistinct(ours) && 0 <= i < 3 && EntryMarked(ours[i].1)
    ensures var merged := MergeAll(hooks, ours);
      ours[i].0 in merged &&
      (Marked(merged[ours[i].0]) <==> ours[i].0 !in hooks || hooks[ours[i].0].Arr?)
  {
    var name := ours[i].0;
    MergeThreeAt(hooks, ours, name);
    assert MergeAll(hooks, ours)[name] == MergeValue(Get(Obj(hooks), name), ours[i].1);
    MergeValueIdempotent(Get(Obj(hooks), name), ours[i].1);
  }

  lemma SetupWithConfigured(settings: Json, ours: seq<(string, Json)>)
    requires Installs(ours) && SetupWith(settings, ours).Written?
    ensures var hooks := if "hooks" in settings.fields then settings.fields["hooks"].fields else map[];
      HooksConfigured(SetupWith(settings, ours).settings) <==>
        exists k :: 0 <= k < |ConfiguredEvents| &&
          (ConfiguredEvents[k] !in hooks || hooks[ConfiguredEvents[k]].Arr?)
  {
    var fields := if "hooks" in settings.fields then settings.fields
                  else settings.fields["hooks" := Obj(map[])];
    var hooks := fields["hooks"].fields;
    var merged := MergeAll(hooks, ours);
    var out := Obj(fields["hooks" := Obj(merged)]);
    assert SetupWith(settings, ours) == Written(out);
    assert Get(out, "hooks") == Some(Obj(merged));
    forall k | 0 <= k < |ConfiguredEvents|
      ensures EventMarked(Obj(merged), ConfiguredEvents[k]) <==>
        (ConfiguredEvents[k] !in hooks || hooks[ConfiguredEvents[k]].Arr?)
    {
      MergedEventMarked(hooks, ours, k);
    }
  }

  /** After a successful setup the hooks count as installed exactly when one of the
      three events was absent or an array: an event holding some other value is
      skipped silently, so setup can succeed with nothing installed. */
  lemma SetupThenConfigured(settings: Json)
    requires SetupSettings(settings).Written?
    ensures var hooks := if "hooks" in settings.fields then settings.fields["hooks"].fields else map[];
      HooksConfigured(SetupSettings(settings).settings) <==>
        exists k :: 0 <= k < |ConfiguredEvents| &&
          (ConfiguredEvents[k] !in hooks || hooks[ConfiguredEvents[k]].Arr?)
  {
    OurHooksShape();
    SetupWithConfigured(settings, OurHooks);
  }

  /** Setup can succeed and still install nothing: all three events hold strings. */
  lemma SetupCanInstallNothing()
    ensures var settings := Obj(map["hooks" := Obj(map["UserPromptSubmit" := Str(""), "Stop" := Str(""),
                                                       "PostToolUseFailure" := Str("")])]);
      SetupSettings(settings).Written? && !HooksConfigured(SetupSettings(settings).settings)
  {
    var settings := Obj(map["hooks" := Obj(map["UserPromptSubmit" := Str(""), "Stop" := Str(""),
                                               "PostToolUseFailure" := Str("")])]);
    SetupThenConfigured(settings);
  }

  // ------------------------------------------------------------ removal

  const RemovedEvents: seq<string> := ["UserPromptSubmit", "Stop", "Notification", "PreToolUse", "PostToolUseFailure"]

  /** The entries `retain` keeps: those without a marked hook, in order. */
  function KeepEntries(items: seq<Json>): (kept: seq<Json>)
    ensures forall x :: x in kept <==> x in items && !EntryMarked(x)
    ensures |kept| <= |items|
    ensures |items| == 1 ==> kept == (if EntryMarked(items[0]) then [] else items)
    decreases |items|
  {
    if items == [] then []
    else
      var rest := KeepEntries(items[..|items| - 1]);
      var last := items[|items| - 1];
      assert items == items[..|items| - 1] + [last];
      if EntryMarked(last) then rest else rest + [last]
  }

  /** `retain` works entry by entry: filtering a concatenation filters each part
      and keeps them in order. With the one-entry case of `KeepEntries` this fixes
      the result completely, order and repetitions included. */
  lemma {:induction false} KeepEntriesAppend(a: seq<Json>, b: seq<Json>)
    ensures KeepEntries(a + b) == KeepEntries(a) + KeepEntries(b)
    decreases |b|
  {
    if b == [] {
      assert a + b == a;
    } else {
      KeepEntriesAppend(a, b[..|b| - 1]);
      KeepEntriesAppendStep(a, b);
    }
  }

  /** The inductive step of `KeepEntriesAppend`, for the last entry of `b`. */
  lemma KeepEntriesAppendStep(a: seq<Json>, b: seq<Json>)
    requires b != []
    requires KeepEntries(a + b[..|b| - 1]) == KeepEntries(a) + KeepEntries(b[..|b| - 1])
    ensures KeepEntries(a + b) == KeepEntries(a) + KeepEntries(b)
  {
    var front, last := b[..|b| - 1], b[|b| - 1];
    var ka, kf := KeepEntries(a), KeepEntries(front);
    SplitLast(a, b);
    KeepEntriesSnoc(a + front, last);
    KeepEntriesSnoc(front, last);
    AppendLastAssoc(ka, kf, last);
  }

  /** Sequence facts for the step above, kept apart from `KeepEntries`. */
  lemma SplitLast<T>(a: seq<T>, b: seq<T>)
    requires b != []
    ensures a + b == (a + b[..|b| - 1]) + [b[|b| - 1]]
    ensures b == b[..|b| - 1] + [b[|b| - 1]]
  {
  }

  lemma AppendLastAssoc<T>(x: seq<T>, y: seq<T>, last: T)
    ensures (x + y) + [last] == x + (y + [last])
  {
  }

  /** One step of `KeepEntries`: the last entry is kept unless it is marked. */
  lemma KeepEntriesSnoc(items: seq<Json>, x: Json)
    ensures KeepEntries(items + [x]) == if EntryMarked(x) then KeepEntries(items) else KeepEntries(items) + [x]
  {
    assert (items + [x])[..|items|] == items;
  }

  /** One event's value after `retain`: an array loses its marked entries and is
      then no longer ours; any other value is left alone. */
  function RetainValue(v: Json): (r: Json)
    ensures !v.Arr? ==> r == v
    ensures v.Arr? ==> r.Arr? && !Marked(r) && forall x :: x in r.items <==> x in v.items && !EntryMarked(x)
    ensures v.Arr? && |v.items| == 1 ==> r == if EntryMarked(v.items[0]) then Arr([]) else v
  {
    if v.Arr? then Arr(KeepEntries(v.items)) else v
  }

  /** Filtering an array filters its two halves and keeps them in order. */
  lemma RetainValueAppend(a: seq<Json>, b: seq<Json>)
    ensures RetainValue(Arr(a + b)).items == RetainValue(Arr(a)).items + RetainValue(Arr(b)).items
  {
    KeepEntriesAppend(a, b);
  }

  /** The retain loop of `remove_hooks` over the first `|names|` events. */
  function RetainAll(hooks: map<string, Json>, names: seq<string>): (r: map<string, Json>)
    ensures r.Keys == hooks.Keys
    decreases |names|
  {
    if names == [] then hooks
    else
      var rest := RetainAll(hooks, names[..|names| - 1]);
      var name := names[|names| - 1];
      if name in rest then rest[name := RetainValue(rest[name])] else rest
  }

  /** The cleanup of `remove_hooks`: drop every key whose value is an empty array. */
  function DropEmptyArrays(hooks: map<string, Json>): (r: map<string, Json>)
    ensures forall k :: k in r <==> k in hooks && hooks[k] != Arr([])
    ensures forall k :: k in r ==> r[k] == hooks[k]
  {
    map k | k in hooks && hooks[k] != Arr([]) :: hooks[k]
  }

  /** What `remove_hooks` writes back, given the parsed settings: unchanged without
      a `hooks` object; otherwise the same keys, with no empty array left in `hooks`. */
  function RemoveSettings(settings: Json): (r: Json)
    ensures !(Get(settings, "hooks").Some? && Get(settings, "hooks").value.Obj?) ==> r == settings
    ensures Get(settings, "hooks").Some? && Get(settings, "hooks").value.Obj? ==>
      && r.Obj? && r.fields.Keys == settings.fields.Keys && r.fields["hooks"].Obj?
      && forall k :: k in r.fields["hooks"].fields ==> r.fields["hooks"].fields[k] != Arr([])
  {
    match Get(settings, "hooks")
    case Some(Obj(hooks)) => Obj(settings.fields["hooks" := Obj(DropEmptyArrays(RetainAll(hooks, RemovedEvents)))])
    case _ => settings
  }

  /** The `retain` closure: keep an entry unless its `hooks` array holds a hook
      whose command carries the marker. */
  method KeepEntry(entry: Json) returns (keep: bool)
    ensures keep <==> !EntryMarked(entry)
  {
    var innerHooks := Get(entry, "hooks");
    if innerHooks.Some? && innerHooks.value.Arr? {
      var innerArr := innerHooks.value.items;
      var j := 0;
      while j < |innerArr|
        invariant 0 <= j <= |innerArr|
        invariant forall k :: 0 <= k < j ==> !HookMarked(innerArr[k])
      {
        var command := Get(innerArr[j], "command");
        if command.Some? && command.value.Str? && Contains(command.value.s, HookMarker) {
          assert HookMarked(innerArr[j]);
          return false;
        }
        j := j + 1;
      }
    }
    return true;
  }

  /** `Vec::retain` with that closure. */
  method RetainEntries(arr: seq<Json>) returns (kept: seq<Json>)
    ensures kept == KeepEntries(arr)
  {
    kept := [];
    var j := 0;
    while j < |arr|
      invariant 0 <= j <= |arr|
      invariant kept == KeepEntries(arr[..j])
    {
      assert arr[..j + 1][..j] == arr[..j];
      var keep := KeepEntry(arr[j]);
      if keep {
        kept := kept + [arr[j]];
      }
      j := j + 1;
    }
    assert arr[..|arr|] == arr;
  }

  /** The cleanup: collect the keys holding empty arrays, then remove each. */
  method DropEmptyEvents(retained: map<string, Json>) returns (hooksObj: map<string, Json>)
    ensures hooksObj == DropEmptyArrays(retained)
  {
    hooksObj := retained;
    var emptyEvents := set k | k in retained && retained[k] == Arr([]);
    while emptyEvents != {}
      invariant forall k :: k in emptyEvents ==> k in retained && retained[k] == Arr([])
      invariant forall k :: k in hooksObj <==> k in retained && (retained[k] == Arr([]) ==> k in emptyEvents)
      invariant forall k :: k in hooksObj ==> hooksObj[k] == retained[k]
      decreases |emptyEvents|
    {
      var key :| key in emptyEvents;
      hooksObj := hooksObj - {key};
      emptyEvents := emptyEvents - {key};
    }
  }

  /** `remove_hooks`, once the settings are read: drop our entries from the five
      events, then every empty array from the `hooks` object. Settings without a
      `hooks` object are written back unchanged. */
  method RemoveHooks(settings: Json) returns (out: Json)
    ensures out == RemoveSettings(settings)
  {
    var hooks := Get(settings, "hooks");
    if !(hooks.Some? && hooks.value.Obj?) {
      return settings;
    }
    var start := hooks.value.fields;
    var hooksObj := start;
    var i := 0;
    while i < |RemovedEvents|
      invariant 0 <= i <= |RemovedEvents|
      invariant hooksObj == RetainAll(start, RemovedEvents[..i])
    {
      var eventName := RemovedEvents[i];
      assert RemovedEvents[..i + 1][..i] == RemovedEvents[..i];
      if eventName in hooksObj && hooksObj[eventName].Arr? {
        var kept := RetainEntries(hooksObj[eventName].items);
        hooksObj := hooksObj[eventName := Arr(kept)];
      }
      i := i + 1;
    }
    assert RemovedEvents[..|RemovedEvents|] == RemovedEvents;
    hooksObj := DropEmptyEvents(hooksObj);
    return Obj(settings.fields["hooks" := Obj(hooksObj)]);
  }

  /** Retaining keeps each value of an event outside the list, and filters the
      arrays of the events in it. */
  lemma {:induction false} RetainAllPointwise(hooks: map<string, Json>, names: seq<string>, k: string)
    requires k in hooks
    ensures RetainAll(hooks, names)[k] == (if k in names then RetainValue(hooks[k]) else hooks[k])
    decreases |names|
  {
    if names != [] {
      var init := names[..|names| - 1];
      RetainAllPointwise(hooks, init, k);
      assert names == init + [names[|names| - 1]];
      if k in init {
        RetainValueIdempotent(hooks[k]);
      }
    }
  }

  lemma RetainValueIdempotent(v: Json)
    ensures RetainValue(RetainValue(v)) == RetainValue(v)
  {
    if v.Arr? {
      KeepUnmarkedIsIdentity(KeepEntries(v.items));
    }
  }

  /** Filtering an array with no marked entry keeps all of it. */
  lemma {:induction false} KeepUnmarkedIsIdentity(items: seq<Json>)
    requires forall x :: x in items ==> !EntryMarked(x)
    ensures KeepEntries(items) == items
    decreases |items|
  {
    if items != [] {
      var init := items[..|items| - 1];
      KeepUnmarkedIsIdentity(init);
      assert items == init + [items[|items| - 1]];
    }
  }

  /** An array whose entries are all unmarked is not marked. */
  lemma UnmarkedEntries(v: Json)
    requires v.Arr? && forall x :: x in v.items ==> !EntryMarked(x)
    ensures !Marked(v)
  {
    forall i | 0 <= i < |v.items|
      ensures !EntryMarked(v.items[i])
    {
      assert v.items[i] in v.items;
    }
  }

  /** After removal no event of the five holds a marked entry. */
  lemma RemovalClearsOurEntries(settings: Json, name: string)
    requires name in RemovedEvents
    requires Get(settings, "hooks").Some? && Get(settings, "hooks").value.Obj?
    ensures var out := RemoveSettings(settings);
      !EventMarked(out.fields["hooks"], name)
  {
    var hooks := settings.fields["hooks"].fields;
    var retained := RetainAll(hooks, RemovedEvents);
    if name in hooks {
      RetainAllPointwise(hooks, RemovedEvents, name);
      if retained[name].Arr? {
        UnmarkedEntries(retained[name]);
      }
    }
  }

  /** After removal the hooks no longer count as installed. */
  lemma RemovalUnconfigures(settings: Json)
    ensures !HooksConfigured(RemoveSettings(settings))
  {
    var out := RemoveSettings(settings);
    if Get(settings, "hooks").Some? && Get(settings, "hooks").value.Obj? {
      forall k | 0 <= k < |ConfiguredEvents|
        ensures !EventMarked(out.fields["hooks"], ConfiguredEvents[k])
      {
        assert ConfiguredEvents[k] in RemovedEvents;
        RemovalClearsOurEntries(settings, ConfiguredEvents[k]);
      }
    }
  }

  /** Removal keeps the other top-level keys, and in the `hooks` object it keeps
      every key outside the five events unless its value is an empty array. */
  lemma RemovalKeepsOthers(settings: Json, key: string, name: string)
    requires Get(settings, "hooks").Some? && Get(settings, "hooks").value.Obj?
    ensures var out := RemoveSettings(settings);
      && (key != "hooks" ==> Get(out, key) == Get(settings, key))
      && (name !in RemovedEvents ==>
            var before := settings.fields["hooks"].fields;
            Get(out.fields["hooks"], name) ==
              (if name in before && before[name] != Arr([]) then Some(before[name]) else None))
  {
    var hooks := settings.fields["hooks"].fields;
    if name in hooks {
      RetainAllPointwise(hooks, RemovedEvents, name);
    }
  }

  /** Filtering drops an appended marked entry. */
  lemma KeepAppendMarked(items: seq<Json>, entry: Json)
    requires EntryMarked(entry)
    ensures KeepEntries(items + [entry]) == KeepEntries(items)
  {
    assert (items + [entry])[..|items|] == items;
  }

  /** Hooks that setup then removal give back as they were: no empty arrays, and
      no entry of ours in an array under the five events. A value under those
      events that is not an array is skipped by both, so it may be anything. */
  predicate Restorable(hooks: map<string, Json>)
  {
    forall k :: k in hooks ==>
      && hooks[k] != Arr([])
      && (k in RemovedEvents && hooks[k].Arr? ==> forall x :: x in hooks[k].items ==> !EntryMarked(x))
  }

  /** Entries for three distinct events among the five removal visits, each
      carrying the marker. */
  predicate RemovableEntries(ours: seq<(string, Json)>)
  {
    ThreeDistinct(ours) && forall i :: 0 <= i < 3 ==> ours[i].0 in RemovedEvents && EntryMarked(ours[i].1)
  }

  /** Removing our entries from a merged event gives back its old value, or an
      empty array when the merge created it. */
  lemma RetainMergedValue(existing: Option<Json>, entry: Json)
    requires EntryMarked(entry)
    requires existing.Some? && existing.value.Arr? ==> forall x :: x in existing.value.items ==> !EntryMarked(x)
    ensures RetainValue(MergeValue(existing, entry)) == (if existing.Some? then existing.value else Arr([]))
  {
    if existing.Some? && existing.value.Arr? {
      var items := existing.value.items;
      UnmarkedEntries(existing.value);
      KeepAppendMarked(items, entry);
      KeepUnmarkedIsIdentity(items);
    } else {
      KeepAppendMarked([], entry);
    }
  }

  /** The value of a key after merging three entries. */
  lemma MergeThreeAt(hooks: map<string, Json>, ours: seq<(string, Json)>, k: string)
    requires ThreeDistinct(ours)
    ensures var merged := MergeAll(hooks, ours);
      && (k in merged <==> k in hooks || k == ours[0].0 || k == ours[1].0 || k == ours[2].0)
      && (k in merged ==>
            merged[k] == if k == ours[0].0 then MergeValue(Get(Obj(hooks), k), ours[0].1)
                         else if k == ours[1].0 then MergeValue(Get(Obj(hooks), k), ours[1].1)
                         else if k == ours[2].0 then MergeValue(Get(Obj(hooks), k), ours[2].1)
                         else hooks[k])
  {
    MergeThree(hooks, ours);
  }

  /** Retaining after merging gives back each old value, and an empty array for an
      event that was created. */
  lemma RetainAfterMerge(hooks: map<string, Json>, ours: seq<(string, Json)>, k: string)
    requires Restorable(hooks) && RemovableEntries(ours)
    requires k in MergeAll(hooks, ours)
    ensures RetainAll(MergeAll(hooks, ours), RemovedEvents)[k] == (if k in hooks then hooks[k] else Arr([]))
  {
    var merged := MergeAll(hooks, ours);
    MergeThreeAt(hooks, ours, k);
    RetainAllPointwise(merged, RemovedEvents, k);
    if k == ours[0].0 {
      RetainMergedValue(Get(Obj(hooks), k), ours[0].1);
    } else if k == ours[1].0 {
      RetainMergedValue(Get(Obj(hooks), k), ours[1].1);
    } else if k == ours[2].0 {
      RetainMergedValue(Get(Obj(hooks), k), ours[2].1);
    } else if k in RemovedEvents && hooks[k].Arr? {
      KeepUnmarkedIsIdentity(hooks[k].items);
    }
  }

  /** On restorable hooks, removal after the merge gives back the hooks. */
  lemma RemoveAfterMerge(hooks: map<string, Json>, ours: seq<(string, Json)>)
    requires Restorable(hooks) && RemovableEntries(ours)
    ensures DropEmptyArrays(RetainAll(MergeAll(hooks, ours), RemovedEvents)) == hooks
  {
    var merged := MergeAll(hooks, ours);
    var retained := RetainAll(merged, RemovedEvents);
    forall k | k in retained
      ensures retained[k] == (if k in hooks then hooks[k] else Arr([]))
    {
      RetainAfterMerge(hooks, ours, k);
    }
    DropEmptyRestores(hooks, retained);
  }

  /** Dropping the empty arrays from a map that holds the old values and `[]`
      elsewhere gives back the old map, when that had no empty array. */
  lemma DropEmptyRestores(hooks: map<string, Json>, retained: map<string, Json>)
    requires forall k :: k in hooks ==> hooks[k] != Arr([])
    requires hooks.Keys <= retained.Keys
    requires forall k :: k in retained ==> retained[k] == (if k in hooks then hooks[k] else Arr([]))
    ensures DropEmptyArrays(retained) == hooks
  {
    assert DropEmptyArrays(retained).Keys == hooks.Keys;
  }

  /** What setup writes for settings holding a `hooks` object. */
  lemma SetupOnHooks(settings: Json, ours: seq<(string, Json)>)
    requires settings.Obj? && "hooks" in settings.fields && settings.fields["hooks"].Obj?
    ensures SetupWith(settings, ours) ==
      Written(Obj(settings.fields["hooks" := Obj(MergeAll(settings.fields["hooks"].fields, ours))]))
  {
  }

  /** What removal writes for settings holding a `hooks` object. */
  lemma RemoveOnHooks(settings: Json)
    requires settings.Obj? && "hooks" in settings.fields && settings.fields["hooks"].Obj?
    ensures RemoveSettings(settings) ==
      Obj(settings.fields["hooks" := Obj(DropEmptyArrays(RetainAll(settings.fields["hooks"].fields, RemovedEvents)))])
  {
  }

  /** Removal visits every event setup writes to. */
  lemma InstallsAreRemovable(ours: seq<(string, Json)>)
    requires Installs(ours)
    ensures RemovableEntries(ours)
  {
    assert forall i :: 0 <= i < 3 ==> ConfiguredEvents[i] in RemovedEvents;
  }

  lemma RemoveUndoesSetupWith(settings: Json, ours: seq<(string, Json)>)
    requires settings.Obj? && "hooks" in settings.fields && settings.fields["hooks"].Obj?
    requires Restorable(settings.fields["hooks"].fields) && Installs(ours)
    ensures SetupWith(settings, ours).Written?
    ensures RemoveSettings(SetupWith(settings, ours).settings) == settings
  {
    var hooks := settings.fields["hooks"].fields;
    SetupOnHooks(settings, ours);
    InstallsAreRemovable(ours);
    RemoveAfterMerge(hooks, ours);
    RemoveAfterReplacing(settings, MergeAll(hooks, ours));
  }

  /** Removal gives the settings back once it cleans the written hooks object back
      to the old one. */
  lemma RemoveAfterReplacing(settings: Json, written: map<string, Json>)
    requires settings.Obj? && "hooks" in settings.fields && settings.fields["hooks"].Obj?
    requires DropEmptyArrays(RetainAll(written, RemovedEvents)) == settings.fields["hooks"].fields
    ensures RemoveSettings(Obj(settings.fields["hooks" := Obj(written)])) == settings
  {
    var out := Obj(settings.fields["hooks" := Obj(written)]);
    RemoveOnHooks(out);
    assert out.fields["hooks" := settings.fields["hooks"]] == settings.fields;
  }

  /** Removal undoes setup on settings whose hooks are restorable. */
  lemma RemoveUndoesSetup(settings: Json)
    requires settings.Obj? && "hooks" in settings.fields && settings.fields["hooks"].Obj?
    requires Restorable(settings.fields["hooks"].fields)
    ensures SetupSettings(settings).Written?
    ensures RemoveSettings(SetupSettings(settings).settings) == settings
  {
    OurHooksShape();
    RemoveUndoesSetupWith(settings, OurHooks);
  }

  /** Whatever removal writes into a `hooks` object is restorable: it leaves no
      empty array and no entry of ours in an array under the five events. */
  lemma RemovalOutputRestorable(settings: Json)
    requires Get(settings, "hooks").Some? && Get(settings, "hooks").value.Obj?
    ensures Restorable(RemoveSettings(settings).fields["hooks"].fields)
  {
    var out := RemoveSettings(settings).fields["hooks"];
    forall k | k in out.fields && k in RemovedEvents && out.fields[k].Arr?
      ensures forall x :: x in out.fields[k].items ==> !EntryMarked(x)
    {
      RemovalClearsOurEntries(settings, k);
      NoMarkedEntry(out.fields[k]);
    }
  }

  /** An array that is not ours holds no marked entry. */
  lemma NoMarkedEntry(v: Json)
    requires v.Arr? && !Marked(v)
    ensures forall x :: x in v.items ==> !EntryMarked(x)
  {
    forall x | x in v.items
      ensures !EntryMarked(x)
    {
      var i :| 0 <= i < |v.items| && v.items[i] == x;
    }
  }

  /** On settings holding a `hooks` object, removal undoes setup if and only if
      those hooks are restorable. */
  lemma RemoveUndoesSetupExactly(settings: Json)
    requires settings.Obj? && "hooks" in settings.fields && settings.fields["hooks"].Obj?
    ensures SetupSettings(settings).Written?
    ensures RemoveSettings(SetupSettings(settings).settings) == settings <==>
      Restorable(settings.fields["hooks"].fields)
  {
    if Restorable(settings.fields["hooks"].fields) {
      RemoveUndoesSetup(settings);
    } else {
      RemovalOutputRestorable(SetupSettings(settings).settings);
    }
  }

  /** Settings without a `hooks` key do not come back exactly: setup inserts the
      object and removal leaves it behind, empty. */
  lemma SetupThenRemoveLeavesEmptyHooks(settings: Json)
    requires settings.Obj? && "hooks" !in settings.fields
    ensures SetupSettings(settings).Written?
    ensures RemoveSettings(SetupSettings(settings).settings) == Obj(settings.fields["hooks" := Obj(map[])])
    ensures RemoveSettings(SetupSettings(settings).settings) != settings
  {
    var withHooks := Obj(settings.fields["hooks" := Obj(map[])]);
    assert SetupSettings(settings) == SetupSettings(withHooks);
    RemoveUndoesSetup(withHooks);
  }
}
