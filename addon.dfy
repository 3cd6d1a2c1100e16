/** The Blender add-on's own logic (__init__.py): the two preference
    sanitisers, the preferences' update hooks and dirty flag, the label of
    the refresh shortcut, the preview server's bookkeeping, the add-on's
    keymap list, and the decision made by the "save preferences" operator.

    Blender, the server subprocess and the file system are outside the
    model: what they return (the preferences or `None`, a new temporary
    directory, whether the process started, whether saving raised) is a
    parameter. */
module Addon {
  import opened Common
  import opened Text

  const DefaultShortcutKey: string := "u"
  const DefaultServerPort: string := "3000"
  const LowestPort: int := 1
  const HighestPort: int := 65535

  // ---------------------------------------------------------------
  // Sanitisers
  // ---------------------------------------------------------------

  /** `sanitize_shortcut_key`: the first character in lower case when it
      is a letter, otherwise "u". */
  function SanitizeShortcutKey(value: string): (r: string)
    ensures |r| == 1 && IsLower(r[0])
    ensures |value| > 0 && IsAlpha(value[0]) ==> r == [LowerChar(value[0])]
    ensures |value| == 0 || !IsAlpha(value[0]) ==> r == DefaultShortcutKey
  {
    if |value| == 0 then DefaultShortcutKey
    else
      var c := LowerChar(value[0]);
      if IsAlpha(c) then [c] else DefaultShortcutKey
  }

  /** Sanitising a sanitised key changes nothing. */
  lemma ShortcutKeyIdempotent(value: string)
    ensures SanitizeShortcutKey(SanitizeShortcutKey(value)) == SanitizeShortcutKey(value)
  {
  }

  /** The keys the sanitiser leaves alone are exactly the single small letters. */
  lemma ShortcutKeyFixedPoints(value: string)
    ensures SanitizeShortcutKey(value) == value <==> (|value| == 1 && IsLower(value[0]))
  {
    if |value| == 1 && IsLower(value[0]) {
      assert SanitizeShortcutKey(value) == [value[0]];
    }
  }

  /** `max(1, min(65535, port))`. */
  function ClampPort(n: int): (p: int)
    ensures LowestPort <= p <= HighestPort
    ensures LowestPort <= n <= HighestPort ==> p == n
    ensures n < LowestPort ==> p == LowestPort
    ensures n > HighestPort ==> p == HighestPort
  {
    if n > HighestPort then HighestPort else if n < LowestPort then LowestPort else n
  }

  /** `sanitize_server_port`: the decimal port the text names, clamped into
      1–65535; "3000" for text that is not an integer. The result always
      reads back as a port number. */
  function SanitizeServerPort(value: string): (r: string)
    ensures ParseInt(r).Some? && LowestPort <= ParseInt(r).value <= HighestPort
    ensures ParseInt(value).None? ==> r == DefaultServerPort
  {
    match ParseInt(value)
    case None =>
      assert NatToString(3000) == DefaultServerPort;
      ParseIntOfIntToString(3000);
      DefaultServerPort
    case Some(n) =>
      var port := ClampPort(n);
      ParseIntOfIntToString(port);
      IntToString(port)
  }

  /** An integer reads back from the sanitised text as itself, clamped. */
  lemma ServerPortClamps(value: string)
    requires ParseInt(value).Some?
    ensures ParseInt(SanitizeServerPort(value)) == Some(ClampPort(ParseInt(value).value))
  {
    ParseIntOfIntToString(ClampPort(ParseInt(value).value));
  }

  /** Sanitising a sanitised port changes nothing. */
  lemma ServerPortIdempotent(value: string)
    ensures SanitizeServerPort(SanitizeServerPort(value)) == SanitizeServerPort(value)
  {
    var r := SanitizeServerPort(value);
    var n := ParseInt(r).value;
    if ParseInt(value).None? {
      assert NatToString(3000) == DefaultServerPort;
      ParseIntOfIntToString(3000);
      assert n == 3000;
    } else {
      ParseIntOfIntToString(ClampPort(ParseInt(value).value));
    }
  }

  /** The ports the sanitiser leaves alone are the numbers 1–65535 written
      in plain decimal ("0080" and "+80" are rewritten to "80"). */
  lemma ServerPortFixedPoints(value: string)
    ensures SanitizeServerPort(value) == value <==>
      (ParseInt(value).Some? && LowestPort <= ParseInt(value).value <= HighestPort &&
       IntToString(ParseInt(value).value) == value)
  {
    match ParseInt(value)
    case None =>
      assert ParseInt(SanitizeServerPort(value)) != ParseInt(value);
    case Some(n) =>
      ParseIntOfIntToString(ClampPort(n));
  }

  // ---------------------------------------------------------------
  // Preferences
  // ---------------------------------------------------------------

  /** The stored preferences as one value. */
  datatype PrefsValues = PrefsValues(
    useShift: bool, useAlt: bool, useCtrl: bool, isDirty: bool,
    serverPort: string, shortcutKey: string)

  /** The property defaults: shift and ctrl on, alt off, port "3000", key "u", clean. */
  const DefaultPrefs: PrefsValues := PrefsValues(true, false, true, false, DefaultServerPort, DefaultShortcutKey)

  /** Both text fields hold what their sanitiser would leave unchanged. */
  predicate PrefsSane(p: PrefsValues) {
    SanitizeShortcutKey(p.shortcutKey) == p.shortcutKey && SanitizeServerPort(p.serverPort) == p.serverPort
  }

  lemma DefaultPrefsSane()
    ensures PrefsSane(DefaultPrefs)
  {
    assert NatToString(3000) == DefaultServerPort;
    ParseIntOfIntToString(3000);
  }

  /** The add-on preferences. Assigning a property runs its update hook,
      and so does an assignment the hook itself makes. */
  class Preferences {
    var useShift: bool
    var useAlt: bool
    var useCtrl: bool
    var isDirty: bool
    var serverPort: string
    var shortcutKey: string

    function Values(): PrefsValues
      reads this
    {
      PrefsValues(useShift, useAlt, useCtrl, isDirty, serverPort, shortcutKey)
    }

    constructor ()
      ensures Values() == DefaultPrefs
    {
      useShift, useAlt, useCtrl, isDirty := true, false, true, false;
      serverPort, shortcutKey := DefaultServerPort, DefaultShortcutKey;
    }

    /** `_mark_preferences_dirty`, the hook of the three modifier switches. */
    method MarkDirty()
      modifies this
      ensures Values() == old(Values()).(isDirty := true)
    {
      isDirty := true;
    }

    /** `_update_shortcut_key`. Its own assignment runs it once more; that
        second run finds the key already sanitised, so the recursion ends. */
    method UpdateShortcutKey()
      modifies this
      ensures Values() == old(Values()).(shortcutKey := SanitizeShortcutKey(old(shortcutKey)), isDirty := true)
      decreases if SanitizeShortcutKey(shortcutKey) == shortcutKey then 0 else 1
    {
      var sanitized := SanitizeShortcutKey(shortcutKey);
      if sanitized != shortcutKey {
        ShortcutKeyIdempotent(shortcutKey);
        shortcutKey := sanitized;
        UpdateShortcutKey();
      }
      isDirty := true;
    }

    /** `_update_server_port`, recursing the same way. */
    method UpdateServerPort()
      modifies this
      ensures Values() == old(Values()).(serverPort := SanitizeServerPort(old(serverPort)), isDirty := true)
      decreases if SanitizeServerPort(serverPort) == serverPort then 0 else 1
    {
      var sanitized := SanitizeServerPort(serverPort);
      if sanitized != serverPort {
        ServerPortIdempotent(serverPort);
        serverPort := sanitized;
        UpdateServerPort();
      }
      isDirty := true;
    }

    /** The user types into the key field. */
    method SetShortcutKey(value: string)
      modifies this
      ensures Values() == old(Values()).(shortcutKey := SanitizeShortcutKey(value), isDirty := true)
      ensures PrefsSane(old(Values())) ==> PrefsSane(Values())
    {
      shortcutKey := value;
      UpdateShortcutKey();
      ShortcutKeyIdempotent(value);
    }

    /** The user types into the port field. */
    method SetServerPort(value: string)
      modifies this
      ensures Values() == old(Values()).(serverPort := SanitizeServerPort(value), isDirty := true)
      ensures PrefsSane(old(Values())) ==> PrefsSane(Values())
    {
      serverPort := value;
      UpdateServerPort();
      ServerPortIdempotent(value);
    }

    method SetUseShift(value: bool)
      modifies this
      ensures Values() == old(Values()).(useShift := value, isDirty := true)
    {
      useShift := value;
      MarkDirty();
    }

    method SetUseAlt(value: bool)
      modifies this
      ensures Values() == old(Values()).(useAlt := value, isDirty := true)
    {
      useAlt := value;
      MarkDirty();
    }

    method SetUseCtrl(value: bool)
      modifies this
      ensures Values() == old(Values()).(useCtrl := value, isDirty := true)
    {
      useCtrl := value;
      MarkDirty();
    }
  }

  // ---------------------------------------------------------------
  // The refresh shortcut
  // ---------------------------------------------------------------

  /** A key chord: which modifiers are held, and the (lower-case) key. */
  datatype Chord = Chord(shift: bool, ctrl: bool, alt: bool, key: string)

  /** The chord the preferences ask for, or shift+ctrl+u without preferences. */
  function PreferredChord(prefs: Option<PrefsValues>): (c: Chord)
    ensures |c.key| == 1 && IsLower(c.key[0])
  {
    match prefs
    case None => Chord(true, true, false, DefaultShortcutKey)
    case Some(p) => Chord(p.useShift, p.useCtrl, p.useAlt, SanitizeShortcutKey(p.shortcutKey))
  }

  /** `"+".join(parts)`. */
  function JoinPlus(parts: seq<string>): string
    decreases |parts|
  {
    if |parts| == 0 then ""
    else if |parts| == 1 then parts[0]
    else parts[0] + "+" + JoinPlus(parts[1..])
  }

  /** The modifier names in the label's order: shift, ctrl, alt. */
  function ModifierNames(c: Chord): seq<string> {
    (if c.shift then ["shift"] else []) + (if c.ctrl then ["ctrl"] else []) + (if c.alt then ["alt"] else [])
  }

  /** `build_preview_shortcut_label`: the parts list is built by appending. */
  method BuildPreviewShortcutLabel(prefs: Option<PrefsValues>) returns (caption: string)
    ensures prefs.None? ==> caption == "shift+ctrl+u"
    ensures prefs.Some? ==> caption == JoinPlus(ModifierNames(PreferredChord(prefs)) + [SanitizeShortcutKey(prefs.value.shortcutKey)])
  {
    if prefs.None? {
      return "shift+ctrl+u";
    }
    var p := prefs.value;
    var parts: seq<string> := [];
    if p.useShift {
      parts := parts + ["shift"];
    }
    if p.useCtrl {
      parts := parts + ["ctrl"];
    }
    if p.useAlt {
      parts := parts + ["alt"];
    }
    parts := parts + [SanitizeShortcutKey(p.shortcutKey)];
    assert parts == ModifierNames(PreferredChord(prefs)) + [SanitizeShortcutKey(p.shortcutKey)];
    caption := JoinPlus(parts);
  }

  /** The label of a chord. */
  function LabelOf(c: Chord): string {
    JoinPlus(ModifierNames(c) + [c.key])
  }

  /** "shift+ctrl+u" is the label of the chord used when there are no preferences. */
  lemma NoPrefsLabel()
    ensures LabelOf(PreferredChord(None)) == "shift+ctrl+u"
    ensures PreferredChord(None) == PreferredChord(Some(DefaultPrefs))
  {
    var parts := ["shift", "ctrl", "u"];
    assert ModifierNames(PreferredChord(None)) + ["u"] == parts;
    assert parts[1..] == ["ctrl", "u"];
    assert parts[1..][1..] == ["u"];
  }

  /** Reads one optional `name+` off the front of `s`. */
  function ReadModifier(s: string, name: string): (bool, string) {
    if name + "+" <= s then (true, s[|name| + 1..]) else (false, s)
  }

  /** Reads a label back: the modifier prefixes in order, then the key. */
  function ParseLabel(s: string): Chord {
    var (shift, s1) := ReadModifier(s, "shift");
    var (ctrl, s2) := ReadModifier(s1, "ctrl");
    var (alt, key) := ReadModifier(s2, "alt");
    Chord(shift, ctrl, alt, key)
  }

  lemma JoinPlusCons(x: string, rest: seq<string>)
    requires |rest| > 0
    ensures JoinPlus([x] + rest) == x + "+" + JoinPlus(rest)
  {
    assert ([x] + rest)[1..] == rest;
  }

  function PrefixIf(b: bool, name: string): string {
    if b then name + "+" else ""
  }

  /** An optional leading part adds its name and a '+' in front of the rest. */
  lemma JoinPlusOptional(b: bool, name: string, rest: seq<string>)
    requires |rest| > 0
    ensures JoinPlus((if b then [name] else []) + rest) == PrefixIf(b, name) + JoinPlus(rest)
  {
    if b {
      JoinPlusCons(name, rest);
    } else {
      assert [] + rest == rest;
      assert "" + JoinPlus(rest) == JoinPlus(rest);
    }
  }

  /** The label spelt out: each held modifier followed by '+', then the key. */
  lemma LabelSpelling(c: Chord)
    ensures LabelOf(c) == PrefixIf(c.shift, "shift") + PrefixIf(c.ctrl, "ctrl") + PrefixIf(c.alt, "alt") + c.key
  {
    var ns: seq<string> := if c.shift then ["shift"] else [];
    var nc: seq<string> := if c.ctrl then ["ctrl"] else [];
    var na: seq<string> := if c.alt then ["alt"] else [];
    var t3: seq<string> := [c.key];
    ConcatAssoc(ns, nc, na, t3);
    JoinPlusOptional(c.alt, "alt", t3);
    JoinPlusOptional(c.ctrl, "ctrl", na + t3);
    JoinPlusOptional(c.shift, "shift", nc + (na + t3));
    ConcatAssoc(PrefixIf(c.shift, "shift"), PrefixIf(c.ctrl, "ctrl"), PrefixIf(c.alt, "alt"), c.key);
  }

  lemma ConcatAssoc<T>(a: seq<T>, b: seq<T>, d: seq<T>, e: seq<T>)
    ensures a + b + d + e == a + (b + (d + e))
  {
  }

  /** One optional prefix reads back, provided what follows does not start with it. */
  lemma ReadPrefix(b: bool, name: string, rest: string)
    requires !(name + "+" <= rest)
    ensures ReadModifier(PrefixIf(b, name) + rest, name) == (b, rest)
  {
    if b {
      var s := PrefixIf(b, name) + rest;
      assert s == name + "+" + rest;
      assert s[..|name| + 1] == name + "+";
      assert name + "+" <= s;
      assert s[|name| + 1..] == rest;
    } else {
      assert PrefixIf(b, name) + rest == rest;
    }
  }

  /** A label names its chord unambiguously: reading it back gives the
      modifiers and the key it was built from. */
  lemma LabelRoundTrip(c: Chord)
    requires |c.key| == 1 && IsLower(c.key[0])
    ensures ParseLabel(LabelOf(c)) == c
  {
    LabelSpelling(c);
    ReadSpelling(c);
  }

  lemma ReadSpelling(c: Chord)
    requires |c.key| == 1 && IsLower(c.key[0])
    ensures ParseLabel(PrefixIf(c.shift, "shift") + PrefixIf(c.ctrl, "ctrl") + PrefixIf(c.alt, "alt") + c.key) == c
  {
    var a := PrefixIf(c.alt, "alt") + c.key;
    var t := PrefixIf(c.ctrl, "ctrl") + a;
    var s := PrefixIf(c.shift, "shift") + t;
    assert PrefixIf(c.shift, "shift") + PrefixIf(c.ctrl, "ctrl") + PrefixIf(c.alt, "alt") + c.key == s;
    ReadPrefix(c.alt, "alt", c.key);
    assert |a| == 1 || a[0] == 'a';
    ReadPrefix(c.ctrl, "ctrl", a);
    assert |t| == 1 || t[0] == 'a' || t[0] == 'c';
    ReadPrefix(c.shift, "shift", t);
  }

  // ---------------------------------------------------------------
  // The add-on keymap list
  // ---------------------------------------------------------------

  const PreviewOperatorIdname: string := "web_preview.preview_scene"

  /** One keymap item as Blender stores it; `key` is the event type letter. */
  datatype KeymapItem = KeymapItem(operator: string, key: char, ctrl: bool, shift: bool, alt: bool)

  /** What `bpy.context` offers: a window manager, and its add-on keyconfig. */
  datatype WmContext = WmContext(hasWindowManager: bool, hasAddonKeyconfigs: bool)

  predicate CanEditKeymaps(ctx: WmContext) {
    ctx.hasWindowManager && ctx.hasAddonKeyconfigs
  }

  /** The item registered for the preferences: the chord's modifiers and the
      key in upper case, bound to the preview operator. */
  function PreviewItem(prefs: Option<PrefsValues>): (item: KeymapItem)
    ensures IsUpper(item.key) && item.operator == PreviewOperatorIdname
  {
    var c := PreferredChord(prefs);
    KeymapItem(PreviewOperatorIdname, UpperChar(c.key[0]), c.ctrl, c.shift, c.alt)
  }

  /** The keymap entered is the one the label announces. */
  lemma LabelMatchesKeymap(prefs: Option<PrefsValues>)
    ensures var item := PreviewItem(prefs);
      ParseLabel(LabelOf(PreferredChord(prefs))) == Chord(item.shift, item.ctrl, item.alt, [LowerChar(item.key)])
  {
    var c := PreferredChord(prefs);
    LabelRoundTrip(c);
    CaseRoundTrip(c.key[0]);
    assert [c.key[0]] == c.key;
  }

  /** `addon_keymaps`, and the items of the add-on keyconfig it tracks. */
  datatype KeymapState = KeymapState(entries: seq<KeymapItem>, installed: multiset<KeymapItem>)

  /** `clear_preview_shortcut_keymap` on values: the list ends empty, and the
      tracked items are taken out of the keyconfig when there is one
      (an item already gone is skipped). */
  function ClearedState(k: KeymapState, ctx: WmContext): KeymapState {
    KeymapState([], if CanEditKeymaps(ctx) then k.installed - multiset(k.entries) else k.installed)
  }

  /** `register_preview_shortcut_keymap` on values. */
  function RegisteredState(k: KeymapState, ctx: WmContext, prefs: Option<PrefsValues>): KeymapState {
    if CanEditKeymaps(ctx) then
      var cleared := ClearedState(k, ctx);
      KeymapState([PreviewItem(prefs)], cleared.installed + multiset{PreviewItem(prefs)})
    else k
  }

  /** Every tracked item is installed. */
  predicate Tracked(k: KeymapState) {
    multiset(k.entries) <= k.installed
  }

  /** Registering keeps the list tracked and leaves it with exactly one
      entry; registering again replaces that entry instead of adding a
      second shortcut. */
  lemma RegisterReplaces(k: KeymapState, ctx: WmContext, p: Option<PrefsValues>, q: Option<PrefsValues>)
    requires CanEditKeymaps(ctx)
    ensures var once := RegisteredState(k, ctx, p);
      Tracked(once) && |once.entries| == 1 &&
      RegisteredState(once, ctx, q).installed == k.installed - multiset(k.entries) + multiset{PreviewItem(q)}
  {
    var once := RegisteredState(k, ctx, p);
    var base := k.installed - multiset(k.entries);
    assert once.installed == base + multiset{PreviewItem(p)};
    assert multiset(once.entries) == multiset{PreviewItem(p)};
    assert once.installed - multiset(once.entries) == base;
  }

  class Keymaps {
    var entries: seq<KeymapItem>
    var installed: multiset<KeymapItem>

    function State(): KeymapState
      reads this
    {
      KeymapState(entries, installed)
    }

    /** The module is loaded: the list is empty; the keyconfig holds what it holds. */
    constructor (items: multiset<KeymapItem>)
      ensures State() == KeymapState([], items)
    {
      entries, installed := [], items;
    }

    /** `clear_preview_shortcut_keymap`. */
    method Clear(ctx: WmContext)
      modifies this
      ensures State() == ClearedState(old(State()), ctx)
    {
      if |entries| == 0 {
        assert installed - multiset(entries) == installed;
        return;
      }
      if !ctx.hasWindowManager {
        entries := [];
        return;
      }
      if !ctx.hasAddonKeyconfigs {
        entries := [];
        return;
      }
      var es := entries;
      var i := 0;
      while i < |es|
        invariant 0 <= i <= |es|
        invariant entries == es
        invariant installed == old(installed) - multiset(es[..i])
      {
        RemoveNext(old(installed), es, i);
        installed := installed - multiset{es[i]};
        i := i + 1;
      }
      assert es[..i] == es;
      entries := [];
    }

    /** `register_preview_shortcut_keymap`. */
    method Register(ctx: WmContext, prefs: Option<PrefsValues>)
      modifies this
      ensures State() == RegisteredState(old(State()), ctx, prefs)
    {
      if !ctx.hasWindowManager || !ctx.hasAddonKeyconfigs {
        return;
      }
      Clear(ctx);
      var c := PreferredChord(prefs);
      var item := KeymapItem(PreviewOperatorIdname, UpperChar(c.key[0]), c.ctrl, c.shift, c.alt);
      installed := installed + multiset{item};
      entries := entries + [item];
    }
  }

  /** Taking the tracked items out one at a time is taking them out together. */
  lemma RemoveNext(m: multiset<KeymapItem>, es: seq<KeymapItem>, i: nat)
    requires i < |es|
    ensures m - multiset(es[..i]) - multiset{es[i]} == m - multiset(es[..i + 1])
  {
    assert es[..i + 1] == es[..i] + [es[i]];
    var a := multiset(es[..i]);
    assert multiset(es[..i + 1]) == a + multiset{es[i]};
    forall y
      ensures (m - a - multiset{es[i]})[y] == (m - (a + multiset{es[i]}))[y]
    {
    }
  }

  // ---------------------------------------------------------------
  // The preview server
  // ---------------------------------------------------------------

  /** The server object's fields as one value; `process` is the subprocess handle. */
  datatype ServerValues = ServerValues(process: Option<ProcessHandle>, port: int, tempDir: Option<string>, isRunning: bool)

  /** An opaque object (a subprocess). */
  datatype ProcessHandle = ProcessHandle(id: nat)

  const UrlPrefix: string := "http://localhost:"

  /** The port a preview URL names, if it is one. */
  function UrlPort(url: string): Option<int> {
    if UrlPrefix <= url then ParseInt(url[|UrlPrefix|..]) else None
  }

  /** The port the preferences ask for, as `find_available_port` reads it. */
  function PreferredPort(prefs: Option<PrefsValues>): (port: int)
    ensures LowestPort <= port <= HighestPort
  {
    ParseInt(SanitizeServerPort(if prefs.Some? then prefs.value.serverPort else DefaultServerPort)).value
  }

  /** `WebPreviewServer`. */
  class WebPreviewServer {
    var process: Option<ProcessHandle>
    var port: int
    var tempDir: Option<string>
    var isRunning: bool

    function Values(): ServerValues
      reads this
    {
      ServerValues(process, port, tempDir, isRunning)
    }

    constructor ()
      ensures Values() == ServerValues(None, 3000, None, false)
    {
      process, port, tempDir, isRunning := None, 3000, None, false;
    }

    /** `find_available_port`: the sanitised preference, read as a number. */
    method FindAvailablePort(prefs: Option<PrefsValues>) returns (p: int)
      modifies this
      ensures p == PreferredPort(prefs)
      ensures Values() == old(Values()).(port := p)
    {
      var text := SanitizeServerPort(if prefs.Some? then prefs.value.serverPort else DefaultServerPort);
      p := ParseInt(text).value;
      port := p;
    }

    /** `start_server`. `newTempDir` is what `mkdtemp` creates and `spawned`
        the subprocess, `None` when starting it raised. */
    method StartServer(prefs: Option<PrefsValues>, newTempDir: string, spawned: Option<ProcessHandle>)
      modifies this
      ensures old(isRunning) ==> Values() == old(Values())
      ensures !old(isRunning) ==> Values() == ServerValues(
        if spawned.Some? then spawned else old(process), PreferredPort(prefs), Some(newTempDir), spawned.Some?)
    {
      if isRunning {
        return;
      }
      tempDir := Some(newTempDir);
      var _ := FindAvailablePort(prefs);
      if spawned.Some? {
        process := spawned;
        isRunning := true;
      } else {
        isRunning := false;
      }
    }

    /** `stop_server`. `tempExists` is whether the temporary directory is
        still on disk; a failure to remove it is reported and ignored. */
    method StopServer(tempExists: bool)
      modifies this
      ensures !old(isRunning) ==> Values() == old(Values())
      ensures old(isRunning) ==> Values() == ServerValues(None, old(port),
        if old(tempDir).Some? && |old(tempDir).value| > 0 && tempExists then None else old(tempDir), false)
    {
      if !isRunning {
        return;
      }
      if process.Some? {
        process := None;
      }
      if tempDir.Some? && |tempDir.value| > 0 && tempExists {
        tempDir := None;
      }
      isRunning := false;
    }

    /** `get_url`: a URL only while running, and it names the server's port. */
    function GetUrl(): (url: Option<string>)
      reads this
      ensures url.Some? <==> isRunning
      ensures url.Some? ==> UrlPort(url.value) == Some(port)
    {
      if !isRunning then None
      else
        var u := UrlPrefix + IntToString(port);
        assert u[|UrlPrefix|..] == IntToString(port);
        ParseIntOfIntToString(port);
        Some(u)
    }
  }

  // ---------------------------------------------------------------
  // Saving the preferences
  // ---------------------------------------------------------------

  datatype ReportLevel = ErrorReport | InfoReport
  datatype Report = Report(level: ReportLevel, message: string)
  datatype OperatorResult = Finished | Cancelled

  /** `WEB_PREVIEW_OT_save_preferences.execute` as a decision on values:
      `savePrefs` is `get_addon_preferences()`, and `saveError` the error
      `save_userpref` raised, if any. The resulting dirty flag is `None`
      when there are no preferences. */
  function SaveOutcome(savePrefs: Option<PrefsValues>, saveError: Option<string>): (OperatorResult, Report) {
    if savePrefs.None? then (Cancelled, Report(ErrorReport, "Preferences not found"))
    else if !savePrefs.value.isDirty then (Cancelled, Report(InfoReport, "No preference changes to save"))
    else if saveError.Some? then (Cancelled, Report(ErrorReport, "Failed to save preferences: " + saveError.value))
    else (Finished, Report(InfoReport, "Preferences saved"))
  }

  /** Only dirty preferences that saved without error finish; every other
      path is cancelled. */
  lemma SaveFinishesOnlyWhenDirty(savePrefs: Option<PrefsValues>, saveError: Option<string>)
    ensures SaveOutcome(savePrefs, saveError).0 == Finished <==>
      (savePrefs.Some? && savePrefs.value.isDirty && saveError.None?)
    ensures SaveOutcome(savePrefs, saveError).0 == Cancelled ==>
      SaveOutcome(savePrefs, saveError).1.level == (if savePrefs.Some? && !savePrefs.value.isDirty then InfoReport else ErrorReport)
  {
  }

  method SavePreferences(prefs: Preferences?, keymaps: Keymaps, ctx: WmContext, saveError: Option<string>)
    returns (result: OperatorResult, report: Report)
    modifies prefs, keymaps
    ensures (result, report) == SaveOutcome(if prefs == null then None else Some(old(prefs.Values())), saveError)
    ensures result == Cancelled ==> prefs == null || prefs.Values() == old(prefs.Values())
    ensures result == Cancelled ==> keymaps.State() == old(keymaps.State())
    ensures result == Finished ==> prefs != null && prefs.Values() == old(prefs.Values()).(isDirty := false)
    ensures result == Finished ==> keymaps.State() == RegisteredState(old(keymaps.State()), ctx, Some(prefs.Values()))
  {
    if prefs == null {
      return Cancelled, Report(ErrorReport, "Preferences not found");
    }
    if !prefs.isDirty {
      return Cancelled, Report(InfoReport, "No preference changes to save");
    }
    if saveError.Some? {
      return Cancelled, Report(ErrorReport, "Failed to save preferences: " + saveError.value);
    }
    prefs.isDirty := false;
    keymaps.Register(ctx, Some(prefs.Values()));
    return Finished, Report(InfoReport, "Preferences saved");
  }
}
