/**
 * The configuration file of sidecar/config.go and sidecar/types.go: loading with migrations,
 * sparse saving, and merging of blocked paths and capabilities. The file is a record of optional
 * keys; keys that no rule below treats specially are not modelled.
 */
module SidecarConfig {
  import opened Options
  import opened Strings

  datatype Tunables = Tunables(
    timeoutMs: int, maxFileSizeKB: int, cdpPort: int, screenMs: int, windowMs: int,
    minChange: real, stuckMs: int, captureDir: string, ttlHours: int)

  datatype Config = Config(
    version: int, tunables: Tunables, capabilities: seq<string>, blockedPaths: seq<string>)

  /** The tunables of a file; each is tagged omitempty, so a zero value leaves the key out. */
  datatype StoredTunables = StoredTunables(
    timeoutMs: Option<int>, maxFileSizeKB: Option<int>, cdpPort: Option<int>, screenMs: Option<int>,
    windowMs: Option<int>, minChange: Option<real>, stuckMs: Option<int>, captureDir: Option<string>,
    ttlHours: Option<int>)

  datatype File = File(
    version: Option<int>, tunables: StoredTunables, capabilities: Option<seq<string>>, blockedPaths: Option<seq<string>>)

  datatype OnDisk = Missing | Unreadable | Unparsable | Parsed(file: File)

  datatype LoadResult = Loaded(config: Config) | ReadError | ParseError

  /** What a build ships: its defaults, and the intervals earlier builds wrote into every file. */
  datatype Defaults = Defaults(
    tunables: Tunables, capabilities: seq<string>, blockedPaths: seq<string>, oldScreenMs: seq<int>, oldWindowMs: seq<int>)

  const CURRENT_VERSION := 2

  /** This build's defaults; the capture directory and the blocked paths depend on the machine. */
  function Shipped(captureDir: string, blockedPaths: seq<string>): Defaults {
    Defaults(Tunables(30000, 100, 9222, 15000, 5000, 0.02, 120000, captureDir, 48),
             ["terminal", "filesystem", "clipboard", "screenshot", "system_info", "awareness", "desktop", "browser",
              "ocr", "windows", "pebble", "sub_pebble", "file_watch", "processes", "notifications"],
             blockedPaths, [7000], [2000])
  }

  /** A zero default would read as "not set". */
  predicate NonZero(t: Tunables) {
    && t.timeoutMs != 0 && t.maxFileSizeKB != 0 && t.cdpPort != 0 && t.screenMs != 0 && t.windowMs != 0
    && t.minChange != 0.0 && t.stuckMs != 0 && t.captureDir != "" && t.ttlHours != 0
  }

  /** This build's defaults are none of them zero, and it has superseded none of its own. */
  lemma ShippedDefaults(captureDir: string, blockedPaths: seq<string>)
    ensures var d := Shipped(captureDir, blockedPaths);
            && (NonZero(d.tunables) <==> captureDir != "")
            && d.tunables.screenMs !in d.oldScreenMs && d.tunables.windowMs !in d.oldWindowMs
  {
  }

  // ---- Blocked paths ----

  predicate Blank(p: string) {
    forall i :: 0 <= i < |p| ==> IsSpace(p[i])
  }

  function NonBlank(paths: seq<string>): seq<string> {
    if paths == [] then []
    else NonBlank(paths[..|paths| - 1]) + if Blank(paths[|paths| - 1]) then [] else [paths[|paths| - 1]]
  }

  function Canonical(canon: string -> string, paths: seq<string>): set<string> {
    set p | p in paths :: canon(p)
  }

  /** The entries of extra whose canonical form is neither in seen nor that of an earlier one. */
  function Unseen(canon: string -> string, seen: set<string>, extra: seq<string>): seq<string>
    decreases |extra|
  {
    if extra == [] then []
    else if canon(extra[0]) in seen then Unseen(canon, seen, extra[1..])
    else [extra[0]] + Unseen(canon, seen + {canon(extra[0])}, extra[1..])
  }

  function Merged(canon: string -> string, existing: seq<string>, extra: seq<string>): seq<string> {
    NonBlank(existing) + Unseen(canon, Canonical(canon, NonBlank(existing)), extra)
  }

  method MergeBlockedPaths(canon: string -> string, existing: seq<string>, extra: seq<string>) returns (merged: seq<string>)
    ensures merged == Merged(canon, existing, extra)
  {
    var seen: set<string> := {};
    merged := [];
    for i := 0 to |existing|
      invariant merged == NonBlank(existing[..i])
      invariant seen == Canonical(canon, merged)
    {
      assert existing[..i + 1][..i] == existing[..i];
      if Blank(existing[i]) {
        continue;
      }
      seen := seen + {canon(existing[i])};
      merged := merged + [existing[i]];
    }
    assert existing[..|existing|] == existing;
    for i := 0 to |extra|
      invariant Merged(canon, existing, extra) == merged + Unseen(canon, seen, extra[i..])
    {
      assert extra[i..][1..] == extra[i + 1..];
      var key := canon(extra[i]);
      if key !in seen {
        seen := seen + {key};
        merged := merged + [extra[i]];
      }
    }
  }

  /** Every default ends up covered, and what is appended is new, default, and not repeated. */
  lemma {:induction false} UnseenCovers(canon: string -> string, seen: set<string>, extra: seq<string>)
    ensures var added := Unseen(canon, seen, extra);
            && (forall p :: p in extra ==> canon(p) in seen || canon(p) in Canonical(canon, added))
            && (forall p :: p in added ==> p in extra && canon(p) !in seen)
            && (forall i, j :: 0 <= i < j < |added| ==> canon(added[i]) != canon(added[j]))
    decreases |extra|
  {
    if extra != [] {
      var rest := extra[1..];
      if canon(extra[0]) in seen {
        UnseenCovers(canon, seen, rest);
      } else {
        UnseenCovers(canon, seen + {canon(extra[0])}, rest);
      }
      assert extra == [extra[0]] + rest;
    }
  }

  lemma {:induction false} NothingUnseen(canon: string -> string, seen: set<string>, extra: seq<string>)
    requires forall p :: p in extra ==> canon(p) in seen
    ensures Unseen(canon, seen, extra) == []
  {
    if extra != [] {
      NothingUnseen(canon, seen, extra[1..]);
    }
  }

  lemma {:induction false} NonBlankConcat(a: seq<string>, b: seq<string>)
    ensures NonBlank(a + b) == NonBlank(a) + NonBlank(b)
  {
    if b == [] {
      assert a + b == a;
    } else {
      assert (a + b)[..|a + b| - 1] == a + b[..|b| - 1];
      NonBlankConcat(a, b[..|b| - 1]);
    }
  }

  lemma {:induction false} NonBlankAll(b: seq<string>)
    requires forall i :: 0 <= i < |b| ==> !Blank(b[i])
    ensures NonBlank(b) == b
  {
    if b != [] {
      NonBlankAll(b[..|b| - 1]);
    }
  }

  lemma {:induction false} NonBlankAreNonBlank(a: seq<string>)
    ensures forall i :: 0 <= i < |NonBlank(a)| ==> !Blank(NonBlank(a)[i])
  {
    if a != [] {
      NonBlankAreNonBlank(a[..|a| - 1]);
    }
  }

  lemma {:induction false} NonBlankKeeps(a: seq<string>, b: seq<string>)
    requires forall p :: p in b ==> !Blank(p)
    ensures NonBlank(NonBlank(a) + b) == NonBlank(a) + b
  {
    NonBlankConcat(NonBlank(a), b);
    NonBlankAreNonBlank(a);
    NonBlankAll(NonBlank(a));
    NonBlankAll(b);
  }

  /** The user's own entries come first and in order; every default is covered; a second merge adds nothing. */
  lemma {:induction false} MergeIsIdempotent(canon: string -> string, existing: seq<string>, extra: seq<string>)
    requires forall p :: p in extra ==> !Blank(p)
    ensures var merged := Merged(canon, existing, extra);
            && NonBlank(existing) <= merged
            && (forall p :: p in extra ==> canon(p) in Canonical(canon, merged))
            && Merged(canon, merged, extra) == merged
  {
    var seen := Canonical(canon, NonBlank(existing));
    var added := Unseen(canon, seen, extra);
    var merged := Merged(canon, existing, extra);
    UnseenCovers(canon, seen, extra);
    NonBlankKeeps(existing, added);
    forall p | p in extra ensures canon(p) in Canonical(canon, merged) {
      assert canon(p) in seen || canon(p) in Canonical(canon, added);
    }
    NothingUnseen(canon, Canonical(canon, merged), extra);
  }

  // ---- Capabilities ----

  function Lacking(have: seq<string>, defaults: seq<string>): seq<string> {
    if defaults == [] then []
    else Lacking(have, defaults[..|defaults| - 1]) +
         if defaults[|defaults| - 1] in have then [] else [defaults[|defaults| - 1]]
  }

  /** Saved capabilities, then the default ones they lack; an empty list is no list. */
  function WithDefaults(saved: seq<string>, defaults: seq<string>): seq<string> {
    if saved == [] then defaults else saved + Lacking(saved, defaults)
  }

  method MergeCapabilities(saved: seq<string>, defaults: seq<string>) returns (caps: seq<string>)
    ensures caps == WithDefaults(saved, defaults)
  {
    caps := saved;
    if |caps| == 0 {
      return defaults;
    }
    var have: set<string> := {};
    for i := 0 to |saved|
      invariant have == set c | c in saved[..i]
    {
      have := have + {saved[i]};
      assert saved[..i + 1] == saved[..i] + [saved[i]];
    }
    assert saved[..|saved|] == saved;
    for i := 0 to |defaults|
      invariant caps == saved + Lacking(saved, defaults[..i])
    {
      assert defaults[..i + 1][..i] == defaults[..i];
      if defaults[i] !in have {
        caps := caps + [defaults[i]];
      }
    }
    assert defaults[..|defaults|] == defaults;
  }

  lemma {:induction false} MissingAre(have: seq<string>, defaults: seq<string>, c: string)
    ensures c in Lacking(have, defaults) <==> c in defaults && c !in have
  {
    if defaults != [] {
      MissingAre(have, defaults[..|defaults| - 1], c);
      assert defaults == defaults[..|defaults| - 1] + [defaults[|defaults| - 1]];
    }
  }

  lemma {:induction false} NoneMissing(have: seq<string>, defaults: seq<string>)
    requires forall c :: c in defaults ==> c in have
    ensures Lacking(have, defaults) == []
  {
    if defaults != [] {
      NoneMissing(have, defaults[..|defaults| - 1]);
    }
  }

  /** A new build's capabilities reach every install, and doing it twice changes nothing. */
  lemma CapabilitiesSettle(saved: seq<string>, defaults: seq<string>)
    ensures saved <= WithDefaults(saved, defaults)
    ensures forall c :: c in defaults ==> c in WithDefaults(saved, defaults)
    ensures WithDefaults(WithDefaults(saved, defaults), defaults) == WithDefaults(saved, defaults)
  {
    forall c | c in defaults ensures c in WithDefaults(saved, defaults) {
      MissingAre(saved, defaults, c);
    }
    NoneMissing(WithDefaults(saved, defaults), defaults);
  }

  // ---- Loading ----

  function Pick<T(==)>(stored: Option<T>, zero: T, def: T): T {
    if stored.None? || stored.value == zero then def else stored.value
  }

  /** An interval; in an unversioned file one that an earlier build shipped counts as not set. */
  function PickInterval(stored: Option<int>, version: int, superseded: seq<int>, def: int): int {
    if stored.Some? && version < 1 && stored.value in superseded then def else Pick(stored, 0, def)
  }

  function LoadedTunables(t: StoredTunables, version: int, defs: Defaults): Tunables {
    var d := defs.tunables;
    Tunables(Pick(t.timeoutMs, 0, d.timeoutMs), Pick(t.maxFileSizeKB, 0, d.maxFileSizeKB), Pick(t.cdpPort, 0, d.cdpPort),
             PickInterval(t.screenMs, version, defs.oldScreenMs, d.screenMs),
             PickInterval(t.windowMs, version, defs.oldWindowMs, d.windowMs),
             Pick(t.minChange, 0.0, d.minChange), Pick(t.stuckMs, 0, d.stuckMs),
             Pick(t.captureDir, "", d.captureDir), Pick(t.ttlHours, 0, d.ttlHours))
  }

  function OrElse<T>(o: Option<T>, def: T): T {
    if o.Some? then o.value else def
  }

  function LoadedPaths(stored: Option<seq<string>>, version: int, defs: Defaults, canon: string -> string): seq<string> {
    var paths := OrElse(stored, defs.blockedPaths);
    if version < 2 then Merged(canon, paths, defs.blockedPaths) else paths
  }

  function LoadedConfig(f: File, defs: Defaults, canon: string -> string): Config {
    var version := OrElse(f.version, 0);
    Config(CURRENT_VERSION, LoadedTunables(f.tunables, version, defs),
           WithDefaults(OrElse(f.capabilities, defs.capabilities), defs.capabilities),
           LoadedPaths(f.blockedPaths, version, defs, canon))
  }

  /** What the steps of loading do to the tunables, one after the other. */
  lemma TunablesLoaded(t: StoredTunables, version: int, defs: Defaults, general: Tunables, migrated: Tunables)
    requires NonZero(defs.tunables)
    requires var o, d := Overwritten(defs.tunables, t), defs.tunables;
             general == o.(timeoutMs := Or(o.timeoutMs, 0, d.timeoutMs),
                           maxFileSizeKB := Or(o.maxFileSizeKB, 0, d.maxFileSizeKB), cdpPort := Or(o.cdpPort, 0, d.cdpPort))
    requires migrated == general.(
               screenMs := if version < 1 && general.screenMs in defs.oldScreenMs then 0 else general.screenMs,
               windowMs := if version < 1 && general.windowMs in defs.oldWindowMs then 0 else general.windowMs)
    ensures Filled(migrated, defs.tunables) == LoadedTunables(t, version, defs)
  {
  }

  class Loader {
    const defs: Defaults
    const canon: string -> string
    var tunables: Tunables
    var capabilities: seq<string>
    var blockedPaths: seq<string>
    var version: int

    /** cfg := defaultConfig() */
    constructor (defs: Defaults, canon: string -> string)
      ensures this.defs == defs && this.canon == canon && View() == Config(0, defs.tunables, defs.capabilities, defs.blockedPaths)
    {
      this.defs, this.canon := defs, canon;
      tunables, capabilities, blockedPaths, version := defs.tunables, defs.capabilities, defs.blockedPaths, 0;
    }

    function View(): Config
      reads this
    {
      Config(version, tunables, capabilities, blockedPaths)
    }

    /** yaml.Unmarshal: a key that is present overwrites the seeded default. */
    method Unmarshal(f: File)
      modifies this
      ensures View() == Config(OrElse(f.version, old(version)), Overwritten(old(tunables), f.tunables),
                               OrElse(f.capabilities, old(capabilities)), OrElse(f.blockedPaths, old(blockedPaths)))
    {
      tunables := Overwritten(tunables, f.tunables);
      capabilities, blockedPaths := OrElse(f.capabilities, capabilities), OrElse(f.blockedPaths, blockedPaths);
      version := OrElse(f.version, version);
    }

    method FillGeneral()
      modifies `tunables
      ensures tunables == old(tunables).(
                timeoutMs := Or(old(tunables).timeoutMs, 0, defs.tunables.timeoutMs),
                maxFileSizeKB := Or(old(tunables).maxFileSizeKB, 0, defs.tunables.maxFileSizeKB),
                cdpPort := Or(old(tunables).cdpPort, 0, defs.tunables.cdpPort))
    {
      if tunables.timeoutMs == 0 { tunables := tunables.(timeoutMs := defs.tunables.timeoutMs); }
      if tunables.maxFileSizeKB == 0 { tunables := tunables.(maxFileSizeKB := defs.tunables.maxFileSizeKB); }
      if tunables.cdpPort == 0 { tunables := tunables.(cdpPort := defs.tunables.cdpPort); }
    }

    method FillAwareness()
      modifies `tunables
      ensures var t, d := old(tunables), defs.tunables;
              tunables == t.(
                screenMs := Or(t.screenMs, 0, d.screenMs), windowMs := Or(t.windowMs, 0, d.windowMs),
                minChange := Or(t.minChange, 0.0, d.minChange), stuckMs := Or(t.stuckMs, 0, d.stuckMs),
                captureDir := Or(t.captureDir, "", d.captureDir), ttlHours := Or(t.ttlHours, 0, d.ttlHours))
    {
      if tunables.screenMs == 0 { tunables := tunables.(screenMs := defs.tunables.screenMs); }
      if tunables.windowMs == 0 { tunables := tunables.(windowMs := defs.tunables.windowMs); }
      if tunables.minChange == 0.0 { tunables := tunables.(minChange := defs.tunables.minChange); }
      if tunables.stuckMs == 0 { tunables := tunables.(stuckMs := defs.tunables.stuckMs); }
      if tunables.captureDir == "" { tunables := tunables.(captureDir := defs.tunables.captureDir); }
      if tunables.ttlHours == 0 { tunables := tunables.(ttlHours := defs.tunables.ttlHours); }
    }

    method Migrate(probed: int)
      modifies this
      ensures capabilities == old(capabilities) && version == CURRENT_VERSION
      ensures tunables == old(tunables).(
                screenMs := if probed < 1 && old(tunables).screenMs in defs.oldScreenMs then 0 else old(tunables).screenMs,
                windowMs := if probed < 1 && old(tunables).windowMs in defs.oldWindowMs then 0 else old(tunables).windowMs)
      ensures blockedPaths ==
              if probed < 2 then Merged(canon, old(blockedPaths), defs.blockedPaths) else old(blockedPaths)
    {
      if probed < 1 {
        if tunables.screenMs in defs.oldScreenMs { tunables := tunables.(screenMs := 0); }
        if tunables.windowMs in defs.oldWindowMs { tunables := tunables.(windowMs := 0); }
      }
      if probed < 2 {
        blockedPaths := MergeBlockedPaths(canon, blockedPaths, defs.blockedPaths);
      }
      version := CURRENT_VERSION;
    }

    method LoadConfig(data: OnDisk) returns (r: LoadResult)
      requires View() == Config(0, defs.tunables, defs.capabilities, defs.blockedPaths)
      requires NonZero(defs.tunables)
      modifies this
      ensures r == match data
                   case Missing => Loaded(Config(CURRENT_VERSION, defs.tunables, defs.capabilities, defs.blockedPaths))
                   case Unreadable => ReadError
                   case Unparsable => ParseError
                   case Parsed(f) => Loaded(LoadedConfig(f, defs, canon))
    {
      if data.Missing? {
        version := CURRENT_VERSION;
        return Loaded(View());
      }
      if data.Unreadable? {
        return ReadError;
      }
      if data.Unparsable? {
        return ParseError;
      }
      Unmarshal(data.file);
      FillGeneral();
      ghost var general := tunables;
      capabilities := MergeCapabilities(capabilities, defs.capabilities);
      var probed := if data.file.version.Some? then data.file.version.value else 0;
      Migrate(probed);
      TunablesLoaded(data.file.tunables, probed, defs, general, tunables);
      FillAwareness();
      assert tunables == LoadedTunables(data.file.tunables, probed, defs);
      r := Loaded(View());
    }
  }

  function Overwritten(d: Tunables, t: StoredTunables): Tunables {
    Tunables(OrElse(t.timeoutMs, d.timeoutMs), OrElse(t.maxFileSizeKB, d.maxFileSizeKB), OrElse(t.cdpPort, d.cdpPort),
             OrElse(t.screenMs, d.screenMs), OrElse(t.windowMs, d.windowMs), OrElse(t.minChange, d.minChange),
             OrElse(t.stuckMs, d.stuckMs), OrElse(t.captureDir, d.captureDir), OrElse(t.ttlHours, d.ttlHours))
  }

  function Or<T(==)>(v: T, zero: T, def: T): T {
    if v == zero then def else v
  }

  function Filled(t: Tunables, d: Tunables): Tunables {
    Tunables(Or(t.timeoutMs, 0, d.timeoutMs), Or(t.maxFileSizeKB, 0, d.maxFileSizeKB), Or(t.cdpPort, 0, d.cdpPort),
             Or(t.screenMs, 0, d.screenMs), Or(t.windowMs, 0, d.windowMs), Or(t.minChange, 0.0, d.minChange),
             Or(t.stuckMs, 0, d.stuckMs), Or(t.captureDir, "", d.captureDir), Or(t.ttlHours, 0, d.ttlHours))
  }

  // ---- Saving ----

  /** Left out of the file if it equals the default (sparseForSave) or is zero (omitempty). */
  function Keep<T(==)>(v: T, zero: T, def: T): Option<T> {
    if v == def || v == zero then None else Some(v)
  }

  function Saved(c: Config, d: Tunables): File {
    var t := c.tunables;
    File(Some(CURRENT_VERSION),
         StoredTunables(Keep(t.timeoutMs, 0, d.timeoutMs), Keep(t.maxFileSizeKB, 0, d.maxFileSizeKB),
                        Keep(t.cdpPort, 0, d.cdpPort), Keep(t.screenMs, 0, d.screenMs), Keep(t.windowMs, 0, d.windowMs),
                        Keep(t.minChange, 0.0, d.minChange), Keep(t.stuckMs, 0, d.stuckMs),
                        Keep(t.captureDir, "", d.captureDir), Keep(t.ttlHours, 0, d.ttlHours)),
         Some(c.capabilities), Some(c.blockedPaths))
  }

  /** omitempty: a zero tunable leaves its key out; capabilities and blocked paths are always written. */
  function Marshal(c: Config): File {
    var t := c.tunables;
    File(NotZero(c.version, 0),
         StoredTunables(NotZero(t.timeoutMs, 0), NotZero(t.maxFileSizeKB, 0), NotZero(t.cdpPort, 0), NotZero(t.screenMs, 0),
                        NotZero(t.windowMs, 0), NotZero(t.minChange, 0.0), NotZero(t.stuckMs, 0), NotZero(t.captureDir, ""),
                        NotZero(t.ttlHours, 0)),
         Some(c.capabilities), Some(c.blockedPaths))
  }

  function NotZero<T(==)>(v: T, zero: T): Option<T> {
    if v == zero then None else Some(v)
  }

  /** The value written for v: zero if it equals the default. */
  function Strip<T(==)>(v: T, zero: T, def: T): T {
    if v == def then zero else v
  }

  method StripTunables(tunables: Tunables, d: Tunables) returns (t: Tunables)
    ensures t == Tunables(Strip(tunables.timeoutMs, 0, d.timeoutMs), Strip(tunables.maxFileSizeKB, 0, d.maxFileSizeKB),
                          Strip(tunables.cdpPort, 0, d.cdpPort), Strip(tunables.screenMs, 0, d.screenMs),
                          Strip(tunables.windowMs, 0, d.windowMs), Strip(tunables.minChange, 0.0, d.minChange),
                          Strip(tunables.stuckMs, 0, d.stuckMs), Strip(tunables.captureDir, "", d.captureDir),
                          Strip(tunables.ttlHours, 0, d.ttlHours))
  {
    t := tunables;
    if t.timeoutMs == d.timeoutMs { t := t.(timeoutMs := 0); }
    if t.maxFileSizeKB == d.maxFileSizeKB { t := t.(maxFileSizeKB := 0); }
    if t.cdpPort == d.cdpPort { t := t.(cdpPort := 0); }
    if t.screenMs == d.screenMs { t := t.(screenMs := 0); }
    if t.windowMs == d.windowMs { t := t.(windowMs := 0); }
    if t.minChange == d.minChange { t := t.(minChange := 0.0); }
    if t.stuckMs == d.stuckMs { t := t.(stuckMs := 0); }
    if t.captureDir == d.captureDir { t := t.(captureDir := ""); }
    if t.ttlHours == d.ttlHours { t := t.(ttlHours := 0); }
  }

  method SparseForSave(c: Config, d: Tunables) returns (out: Config)
    ensures Marshal(out) == Saved(c, d)
    ensures out.capabilities == c.capabilities && out.blockedPaths == c.blockedPaths
  {
    var t := StripTunables(c.tunables, d);
    out := Config(CURRENT_VERSION, t, c.capabilities, c.blockedPaths);
  }

  // ---- Main results ----

  /**
   * Saving then loading returns every tunable that is not zero, even one equal to a default that
   * has been superseded; zero ones come back as the default, blocked paths are untouched, and
   * capabilities gain only default ones.
   */
  lemma SaveThenLoad(c: Config, defs: Defaults, canon: string -> string)
    requires NonZero(defs.tunables)
    ensures LoadedConfig(Saved(c, defs.tunables), defs, canon) ==
            Config(CURRENT_VERSION, Filled(c.tunables, defs.tunables), WithDefaults(c.capabilities, defs.capabilities), c.blockedPaths)
    ensures NonZero(c.tunables) ==> LoadedConfig(Saved(c, defs.tunables), defs, canon).tunables == c.tunables
  {
  }

  /** Loading settles: whatever file one starts from, saving what was loaded and loading again changes nothing. */
  lemma LoadSaveLoad(f: File, defs: Defaults, canon: string -> string)
    requires NonZero(defs.tunables)
    ensures LoadedConfig(Saved(LoadedConfig(f, defs, canon), defs.tunables), defs, canon) == LoadedConfig(f, defs, canon)
  {
    var c := LoadedConfig(f, defs, canon);
    CapabilitiesSettle(OrElse(f.capabilities, defs.capabilities), defs.capabilities);
    SaveThenLoad(c, defs, canon);
    assert NonZero(c.tunables);
  }

  /** Where a tunable goes when the build that loads the file has other defaults than the one that saved it. */
  function Moved<T(==)>(v: T, zero: T, was: T, now: T): T {
    if v == was || v == zero then now else v
  }

  /** A value that equalled the old default follows the new one; any other stays. */
  lemma ChangedDefaultsFollow(c: Config, was: Defaults, now: Defaults, canon: string -> string)
    requires NonZero(was.tunables) && NonZero(now.tunables)
    ensures var t := c.tunables;
            var w := was.tunables;
            var n := now.tunables;
            LoadedConfig(Saved(c, w), now, canon).tunables ==
            Tunables(Moved(t.timeoutMs, 0, w.timeoutMs, n.timeoutMs), Moved(t.maxFileSizeKB, 0, w.maxFileSizeKB, n.maxFileSizeKB),
                     Moved(t.cdpPort, 0, w.cdpPort, n.cdpPort), Moved(t.screenMs, 0, w.screenMs, n.screenMs),
                     Moved(t.windowMs, 0, w.windowMs, n.windowMs), Moved(t.minChange, 0.0, w.minChange, n.minChange),
                     Moved(t.stuckMs, 0, w.stuckMs, n.stuckMs), Moved(t.captureDir, "", w.captureDir, n.captureDir),
                     Moved(t.ttlHours, 0, w.ttlHours, n.ttlHours))
  {
  }

  /** The file pins an interval: the value is not zero, nor one that an unversioned file got from an earlier build. */
  predicate Pins(stored: Option<int>, version: int, superseded: seq<int>) {
    stored.Some? && stored.value != 0 && !(version < 1 && stored.value in superseded)
  }

  /** Both intervals survive loading exactly if the file pins them; otherwise the default applies. */
  lemma ExplicitIntervalSurvives(f: File, defs: Defaults, canon: string -> string)
    ensures var t, d, version := LoadedConfig(f, defs, canon).tunables, defs.tunables, OrElse(f.version, 0);
            && t.screenMs == (if Pins(f.tunables.screenMs, version, defs.oldScreenMs) then f.tunables.screenMs.value else d.screenMs)
            && t.windowMs == (if Pins(f.tunables.windowMs, version, defs.oldWindowMs) then f.tunables.windowMs.value else d.windowMs)
    ensures var t, version := LoadedConfig(f, defs, canon).tunables, OrElse(f.version, 0);
            && (f.tunables.screenMs.Some? && f.tunables.screenMs.value != defs.tunables.screenMs ==>
                  (t.screenMs == f.tunables.screenMs.value <==> Pins(f.tunables.screenMs, version, defs.oldScreenMs)))
            && (f.tunables.windowMs.Some? && f.tunables.windowMs.value != defs.tunables.windowMs ==>
                  (t.windowMs == f.tunables.windowMs.value <==> Pins(f.tunables.windowMs, version, defs.oldWindowMs)))
  {
  }

  /** A file from before version 2 ends up blocking every default path; a later file keeps its own list, even empty. */
  lemma OldFilesGainDefaultPaths(f: File, defs: Defaults, canon: string -> string)
    requires forall p :: p in defs.blockedPaths ==> !Blank(p)
    ensures var paths := LoadedConfig(f, defs, canon).blockedPaths;
            if OrElse(f.version, 0) >= 2 && f.blockedPaths.Some? then paths == f.blockedPaths.value
            else forall p :: p in defs.blockedPaths ==> canon(p) in Canonical(canon, paths)
  {
    MergeIsIdempotent(canon, OrElse(f.blockedPaths, defs.blockedPaths), defs.blockedPaths);
  }
}
