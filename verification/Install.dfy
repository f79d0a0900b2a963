/**
 * Which installed bridge the launcher runs: `installBridge` and its fast path `intactInstall` in server/agent-install.ts.
 *
 * A file's content is known by its hash. Every write replaces a whole file, and one install runs at a time.
 */
module Install {
  import opened Wrappers
  import opened Versions

  type Hash = nat

  /** One entry of installed.json. */
  datatype Recorded = Recorded(version: string, file: string, sha: Hash)

  /** The launcher as `launcherSource` writes it: for one version and the hash its file must have. */
  datatype Launcher = Launcher(version: string, sha: Hash)

  /**
   * The bin folder: its bundles, the manifest in the order of its keys (None when there is none or it can't be read), the
   * launcher, and the versions whose verified page is installed beside them.
   */
  datatype Folder = Folder(files: map<string, Hash>, manifest: Option<seq<Recorded>>, launcher: Option<Launcher>, pages: set<string>)

  datatype Answer = Answer(version: string, installed: string)

  function FileName(version: string): string {
    "meshrooms-" + version + ".js"
  }

  lemma FileNamesDiffer(v: string, w: string)
    requires FileName(v) == FileName(w)
    ensures v == w
  {
    assert FileName(v)[10..|FileName(v)| - 3] == v;
    assert FileName(w)[10..|FileName(w)| - 3] == w;
  }

  function Records(manifest: Option<seq<Recorded>>): seq<Recorded> {
    if manifest.Some? then manifest.value else []
  }

  function LookedUp(ms: seq<Recorded>, version: string): Option<Recorded> {
    if ms == [] then None else if ms[0].version == version then Some(ms[0]) else LookedUp(ms[1..], version)
  }

  /** The manifest with the version's entry set: in its place if it has one, else last. */
  function With(ms: seq<Recorded>, r: Recorded): seq<Recorded> {
    if ms == [] then [r] else if ms[0].version == r.version then [r] + ms[1..] else [ms[0]] + With(ms[1..], r)
  }

  /** A recorded version whose file still has its recorded hash. */
  predicate Intact(r: Recorded, files: map<string, Hash>) {
    IsVersion(r.version) && r.file == FileName(r.version) && r.file in files && files[r.file] == r.sha
  }

  function Kept(ms: seq<Recorded>, files: map<string, Hash>): seq<Recorded> {
    if ms == [] then [] else
      var last := ms[|ms| - 1];
      Kept(ms[..|ms| - 1], files) + (if Intact(last, files) then [last] else [])
  }

  predicate Versioned(ms: seq<Recorded>) {
    forall i :: 0 <= i < |ms| ==> IsVersion(ms[i].version)
  }

  function Order(a: string, b: string): int
    requires IsVersion(a) && IsVersion(b)
  {
    Compare(Parse(a).value, Parse(b).value)
  }

  /** The newest of the records, the first of them where several are equal. */
  function Newest(ms: seq<Recorded>): (r: Recorded)
    requires ms != [] && Versioned(ms)
    ensures r in ms
  {
    if |ms| == 1 then ms[0]
    else
      var best, last := Newest(ms[..|ms| - 1]), ms[|ms| - 1];
      if Order(last.version, best.version) > 0 then last else best
  }

  // ---- The full install and the fast path ----

  datatype Installed = Installed(folder: Folder, answer: Answer)

  function Full(d: Folder, version: string, code: Hash, page: bool): Installed
    requires IsVersion(version)
  {
    var r := Recorded(version, FileName(version), code);
    var files := d.files[r.file := code];
    var ms := Kept(With(Records(d.manifest), r), files);
    NewIsKept(Records(d.manifest), r, files);
    KeptIsIntact(With(Records(d.manifest), r), files);
    var best := Newest(ms);
    Installed(Folder(files, Some(ms), Some(Launcher(best.version, best.sha)), if page then d.pages + {version} else d.pages),
              Answer(best.version, r.file))
  }

  function Fast(d: Folder, version: string, code: Hash, page: bool, private: bool): Option<Answer> {
    var ms := Records(d.manifest);
    if page && version !in d.pages then None
    else if LookedUp(ms, version) != Some(Recorded(version, FileName(version), code)) then None
    else if exists i :: 0 <= i < |ms| && !Intact(ms[i], d.files) then None
    else if d.launcher != Some(Launcher(Newest(ms).version, Newest(ms).sha)) || !private then None
    else Some(Answer(Newest(ms).version, FileName(version)))
  }

  lemma {:induction false} KeptIsIntact(ms: seq<Recorded>, files: map<string, Hash>)
    ensures forall r :: r in Kept(ms, files) <==> r in ms && Intact(r, files)
    ensures Versioned(Kept(ms, files)) && |Kept(ms, files)| <= |ms|
    decreases |ms|
  {
    if ms != [] {
      KeptIsIntact(ms[..|ms| - 1], files);
      assert ms == ms[..|ms| - 1] + [ms[|ms| - 1]];
    }
  }

  lemma {:induction false} WithHas(ms: seq<Recorded>, r: Recorded)
    ensures r in With(ms, r)
    ensures forall s :: s in With(ms, r) ==> s == r || s in ms
    ensures forall s :: s in ms && s.version != r.version ==> s in With(ms, r)
    decreases |ms|
  {
    if ms != [] {
      WithHas(ms[1..], r);
      assert ms == [ms[0]] + ms[1..];
    }
  }

  lemma NewIsKept(ms: seq<Recorded>, r: Recorded, files: map<string, Hash>)
    requires IsVersion(r.version) && r.file == FileName(r.version) && r.file in files && files[r.file] == r.sha
    ensures r in Kept(With(ms, r), files)
  {
    WithHas(ms, r);
    KeptIsIntact(With(ms, r), files);
  }

  // ---- The launcher names the newest ----

  lemma OrderIsPreorder(a: string, b: string, c: string)
    requires IsVersion(a) && IsVersion(b) && IsVersion(c)
    ensures Order(a, b) == -Order(b, a)
    ensures Order(a, b) <= 0 && Order(b, c) <= 0 ==> Order(a, c) <= 0
  {
    CompareIsPrecedence(Parse(a).value, Parse(b).value);
    if Order(a, b) <= 0 && Order(b, c) <= 0 {
      CompareTransitive(Parse(a).value, Parse(b).value, Parse(c).value);
    }
  }

  lemma {:induction false} NewestIsGreatest(ms: seq<Recorded>, r: Recorded)
    requires ms != [] && Versioned(ms) && r in ms
    ensures Order(r.version, Newest(ms).version) <= 0
    decreases |ms|
  {
    hide Order, IsVersion;
    var last := ms[|ms| - 1];
    OrderIsPreorder(last.version, last.version, last.version);
    if |ms| > 1 {
      var most := ms[..|ms| - 1];
      var best := Newest(most);
      OrderIsPreorder(best.version, last.version, last.version);
      if r in most {
        NewestIsGreatest(most, r);
        OrderIsPreorder(r.version, best.version, last.version);
      }
    }
  }

  /** Of several that are equally new it is the first. */
  lemma {:induction false} NewestComesFirst(ms: seq<Recorded>, i: nat)
    requires Versioned(ms) && i < |ms| && Order(ms[i].version, Newest(ms).version) == 0
    ensures exists k :: 0 <= k <= i && ms[k] == Newest(ms)
    decreases |ms|
  {
    hide IsVersion, Order;
    if |ms| > 1 {
      var most, last := ms[..|ms| - 1], ms[|ms| - 1];
      NewestIsGreatest(most, if i < |most| then most[i] else most[0]);
      OrderIsPreorder(ms[i].version, Newest(most).version, last.version);
      OrderIsPreorder(last.version, Newest(most).version, last.version);
      OrderIsPreorder(last.version, ms[i].version, Newest(most).version);
      if i < |most| && Newest(ms) == Newest(most) {
        NewestComesFirst(most, i);
        var k :| 0 <= k <= i && most[k] == Newest(most);
        assert ms[k] == Newest(ms);
      } else if i < |most| {
        assert false;
      } else if Newest(ms) == Newest(most) {
        var k :| 0 <= k < |most| && most[k] == Newest(most);
        assert ms[k] == Newest(ms);
      }
    }
  }

  /** After an install the manifest has the new entry, and every other it had whose file is intact; nothing else. */
  lemma ManifestAfter(d: Folder, version: string, code: Hash, page: bool, r: Recorded)
    requires IsVersion(version)
    ensures var f := Full(d, version, code, page).folder;
      r in Records(f.manifest) <==>
        || r == Recorded(version, FileName(version), code)
        || (r in Records(d.manifest) && r.version != version && Intact(r, d.files))
  {
    hide Order, IsVersion;
    var made := Recorded(version, FileName(version), code);
    var ms, files := Records(d.manifest), d.files[made.file := code];
    KeptIsIntact(With(ms, made), files);
    WithHas(ms, made);
    if r.version == version && r.file == FileName(version) && Intact(r, files) {
      assert r == made;
    }
    if IsVersion(r.version) && r.file == FileName(r.version) == made.file {
      FileNamesDiffer(r.version, version);
    }
  }

  /**
   * After an install the launcher runs a recorded version whose file has its recorded hash, and no recorded one is newer;
   * those are the new one and all that were recorded and intact.
   */
  lemma LauncherNamesNewest(d: Folder, version: string, code: Hash, page: bool)
    requires IsVersion(version)
    ensures var i := Full(d, version, code, page); var ms := Records(i.folder.manifest);
      && ms != [] && Versioned(ms)
      && i.folder.launcher == Some(Launcher(Newest(ms).version, Newest(ms).sha)) && i.answer.version == Newest(ms).version
      && Newest(ms) in ms && Intact(Newest(ms), i.folder.files)
      && forall r :: r in ms ==> Order(r.version, Newest(ms).version) <= 0
  {
    var i := Full(d, version, code, page);
    var ms := Records(i.folder.manifest);
    NewIsKept(Records(d.manifest), Recorded(version, FileName(version), code), i.folder.files);
    KeptIsIntact(With(Records(d.manifest), Recorded(version, FileName(version), code)), i.folder.files);
    forall r | r in ms ensures Order(r.version, Newest(ms).version) <= 0 {
      NewestIsGreatest(ms, r);
    }
  }

  /** An install never leaves the launcher behind a version that was recorded and intact, nor behind its own. */
  lemma NeverMovesBack(d: Folder, version: string, code: Hash, page: bool, r: Recorded)
    requires IsVersion(version) && (r.version == version || (r in Records(d.manifest) && Intact(r, d.files)))
    ensures var newest := Full(d, version, code, page).answer.version; IsVersion(newest) && Order(r.version, newest) <= 0
  {
    hide Order, IsVersion;
    LauncherNamesNewest(d, version, code, page);
    ManifestAfter(d, version, code, page, r);
    var made := Recorded(version, FileName(version), code);
    ManifestAfter(d, version, code, page, made);
    NewestIsGreatest(Records(Full(d, version, code, page).folder.manifest), if r.version == version then made else r);
  }

  // ---- The fast path ----

  lemma {:induction false} KeptWhole(ms: seq<Recorded>, files: map<string, Hash>)
    requires forall i :: 0 <= i < |ms| ==> Intact(ms[i], files)
    ensures Kept(ms, files) == ms
    decreases |ms|
  {
    hide Intact;
    if ms != [] {
      KeptWhole(ms[..|ms| - 1], files);
      assert ms == ms[..|ms| - 1] + [ms[|ms| - 1]];
    }
  }

  lemma {:induction false} WithSame(ms: seq<Recorded>, r: Recorded)
    requires LookedUp(ms, r.version) == Some(r)
    ensures With(ms, r) == ms
    decreases |ms|
  {
    if ms[0].version != r.version {
      WithSame(ms[1..], r);
    }
    assert ms == [ms[0]] + ms[1..];
  }

  lemma {:induction false} LookedUpHas(ms: seq<Recorded>, version: string)
    ensures var found := LookedUp(ms, version);
      if found.Some? then found.value in ms && found.value.version == version else forall r :: r in ms ==> r.version != version
    decreases |ms|
  {
    if ms != [] {
      LookedUpHas(ms[1..], version);
      assert ms == [ms[0]] + ms[1..];
    }
  }

  lemma FastChangesNothing(d: Folder, version: string, code: Hash, page: bool)
    requires IsVersion(version) && Fast(d, version, code, page, true).Some?
    ensures Full(d, version, code, page) == Installed(d, Fast(d, version, code, page, true).value)
  {
    hide Order, IsVersion;
    var r, ms := Recorded(version, FileName(version), code), Records(d.manifest);
    LookedUpHas(ms, version);
    WithSame(ms, r);
    assert d.files[r.file := code] == d.files;
    KeptWhole(ms, d.files);
    assert d.manifest == Some(ms);
    assert page ==> d.pages + {version} == d.pages;
  }

  lemma NothingChangesMeansFast(d: Folder, version: string, code: Hash, page: bool)
    requires IsVersion(version) && Full(d, version, code, page).folder == d
    ensures Fast(d, version, code, page, true).Some?
  {
    var r, ms := Recorded(version, FileName(version), code), Records(d.manifest);
    NewIsKept(ms, r, d.files);
    KeptIsIntact(With(ms, r), d.files);
    assert d.files[r.file := code] == d.files && Kept(With(ms, r), d.files) == ms && r in ms;
    LookedUpHas(ms, version);
    assert forall i :: 0 <= i < |ms| ==> ms[i] in ms;
    assert page ==> version in d.pages + {version};
  }

  /**
   * The fast path answers exactly when the full install would change nothing (and the folder is private), and then with the
   * answer of the full install.
   */
  lemma FastIsFullWithoutChange(d: Folder, version: string, code: Hash, page: bool, private: bool)
    requires IsVersion(version)
    ensures var full := Full(d, version, code, page);
      Fast(d, version, code, page, private) == if private && full.folder == d then Some(full.answer) else None
  {
    if Fast(d, version, code, page, true).Some? {
      FastChangesNothing(d, version, code, page);
    }
    if Full(d, version, code, page).folder == d {
      NothingChangesMeansFast(d, version, code, page);
    }
  }

  lemma InstalledIsRecorded(d: Folder, version: string, code: Hash, page: bool)
    requires IsVersion(version)
    ensures var f := Full(d, version, code, page).folder;
      && LookedUp(Records(f.manifest), version) == Some(Recorded(version, FileName(version), code))
      && forall i :: 0 <= i < |Records(f.manifest)| ==> Intact(Records(f.manifest)[i], f.files)
  {
    hide Order, IsVersion, Newest, With;
    var r, f := Recorded(version, FileName(version), code), Full(d, version, code, page).folder;
    var ms := Records(f.manifest);
    ManifestAfter(d, version, code, page, r);
    KeptIsIntact(With(Records(d.manifest), r), f.files);
    assert forall i :: 0 <= i < |ms| ==> ms[i] in ms;
    LookedUpHas(ms, version);
    assert Intact(LookedUp(ms, version).value, f.files);
  }

  /** So right after an install the same bridge needs no other. */
  lemma InstallIsIdempotent(d: Folder, version: string, code: Hash, page: bool)
    requires IsVersion(version)
    ensures var full := Full(d, version, code, page);
      Full(full.folder, version, code, page) == full && Fast(full.folder, version, code, page, true) == Some(full.answer)
  {
    hide Order, IsVersion, Intact, Kept, With, LookedUp;
    InstalledIsRecorded(d, version, code, page);
    LauncherNamesNewest(d, version, code, page);
    FastChangesNothing(Full(d, version, code, page).folder, version, code, page);
  }

  // ---- Over any installs ----

  datatype Event =
    | AnInstall(version: string, code: Hash, page: bool, private: bool)
    /** An install that stops after so many of its writes: the bundle, the page, the manifest, the launcher. */
    | CutShort(version: string, code: Hash, page: bool, writes: nat)
    | FileChanges(file: string, content: Option<Hash>)
    | PageChanges(version: string)

  function Do(d: Folder, e: Event): Folder {
    match e
    case AnInstall(version, code, page, private) =>
      if !IsVersion(version) || !private || Fast(d, version, code, page, private).Some? then d else Full(d, version, code, page).folder
    case CutShort(version, code, page, writes) =>
      if !IsVersion(version) then d else
        var f := Full(d, version, code, page).folder;
        Folder(if writes >= 1 then f.files else d.files, if writes >= 3 then f.manifest else d.manifest,
               if writes >= 4 then f.launcher else d.launcher, if writes >= 2 then f.pages else d.pages)
    case FileChanges(file, content) =>
      d.(files := if content.Some? then d.files[file := content.value] else d.files - {file})
    case PageChanges(version) => d.(pages := d.pages - {version})
  }

  function Exec(d: Folder, es: seq<Event>): Folder
    decreases |es|
  {
    if es == [] then d else Exec(Do(d, es[0]), es[1..])
  }

  /** The version's own bundle isn't touched but by whole installs. */
  predicate Spares(e: Event, version: string) {
    match e
    case AnInstall(_, _, _, _) => true
    case CutShort(v, _, _, _) => v != version
    case FileChanges(file, _) => file != FileName(version)
    case PageChanges(_) => true
  }

  /** The version is installed and intact, and the launcher isn't behind it. */
  ghost predicate Stands(d: Folder, version: string) {
    && (exists r :: r in Records(d.manifest) && r.version == version && Intact(r, d.files))
    && d.launcher.Some? && IsVersion(version) && IsVersion(d.launcher.value.version)
    && Order(version, d.launcher.value.version) <= 0
  }

  lemma InstallStands(d: Folder, version: string, code: Hash, page: bool, v: string)
    requires IsVersion(version) && (v == version || Stands(d, v))
    ensures Stands(Full(d, version, code, page).folder, v)
  {
    var f := Full(d, version, code, page).folder;
    LauncherNamesNewest(d, version, code, page);
    var r := Recorded(version, FileName(version), code);
    if v != version {
      r :| r in Records(d.manifest) && r.version == v && Intact(r, d.files);
    }
    NeverMovesBack(d, version, code, page, r);
    ManifestAfter(d, version, code, page, r);
    KeptIsIntact(With(Records(d.manifest), Recorded(version, FileName(version), code)), f.files);
    assert r in Records(f.manifest) && Intact(r, f.files);
  }

  lemma StepStands(d: Folder, e: Event, version: string)
    requires Stands(d, version) && Spares(e, version)
    ensures Stands(Do(d, e), version)
  {
    hide Order, IsVersion, Kept, With;
    var r :| r in Records(d.manifest) && r.version == version && Intact(r, d.files);
    match e
    case AnInstall(v, code, page, private) =>
      if Do(d, e) != d {
        InstallStands(d, v, code, page, version);
      }
    case CutShort(v, code, page, writes) =>
      if IsVersion(v) {
        InstallStands(d, v, code, page, version);
        if v == version || FileName(v) == FileName(version) {
          FileNamesDiffer(v, version);
        }
        assert writes < 3 ==> r in Records(Do(d, e).manifest) && Intact(r, Do(d, e).files);
      }
    case FileChanges(_, _) =>
      assert Intact(r, Do(d, e).files);
    case PageChanges(_) =>
  }

  /**
   * Once a version is installed, no run of installs of other versions, whole or cut short, and of changes to other files ever
   * puts the launcher on an older one.
   */
  lemma {:induction false} OlderNeverWins(d: Folder, version: string, code: Hash, page: bool, es: seq<Event>)
    requires IsVersion(version) && forall i :: 0 <= i < |es| ==> Spares(es[i], version)
    ensures Stands(Exec(Full(d, version, code, page).folder, es), version)
  {
    InstallStands(d, version, code, page, version);
    RunStands(Full(d, version, code, page).folder, version, es);
  }

  lemma {:induction false} RunStands(d: Folder, version: string, es: seq<Event>)
    requires Stands(d, version) && forall i :: 0 <= i < |es| ==> Spares(es[i], version)
    ensures Stands(Exec(d, es), version)
    decreases |es|
  {
    if es != [] {
      StepStands(d, es[0], version);
      RunStands(Do(d, es[0]), version, es[1..]);
    }
  }

  // ---- The folder, written in place ----

  datatype Result = Ok(answer: Answer) | NotAVersion | NotPrivate

  class BinFolder {
    var files: map<string, Hash>
    var manifest: Option<seq<Recorded>>
    var launcher: Option<Launcher>
    var pages: set<string>

    function View(): Folder
      reads this
    {
      Folder(files, manifest, launcher, pages)
    }

    constructor ()
      ensures View() == Folder(map[], None, None, {})
    {
      files, manifest, launcher, pages := map[], None, None, {};
    }

    /** The records whose file still has its hash. */
    method Filter(ms: seq<Recorded>) returns (kept: seq<Recorded>)
      ensures kept == Kept(ms, files)
    {
      kept := [];
      for i := 0 to |ms|
        invariant kept == Kept(ms[..i], files)
      {
        assert ms[..i + 1][..i] == ms[..i];
        if Intact(ms[i], files) { kept := kept + [ms[i]]; }
      }
      assert ms[..|ms|] == ms;
    }

    method Every(ms: seq<Recorded>) returns (all: bool)
      ensures all <==> forall i :: 0 <= i < |ms| ==> Intact(ms[i], files)
    {
      for i := 0 to |ms|
        invariant forall k :: 0 <= k < i ==> Intact(ms[k], files)
      {
        if !Intact(ms[i], files) { return false; }
      }
      return true;
    }

    method Newer(a: string, b: string) returns (newer: bool)
      requires IsVersion(a) && IsVersion(b)
      ensures newer <==> Order(a, b) > 0
    {
      var order := CompareVersions(a, b);
      newer := order.value > 0;
    }

    method Reduce(ms: seq<Recorded>) returns (best: Recorded)
      requires ms != [] && Versioned(ms)
      ensures best == Newest(ms)
    {
      hide Order, IsVersion;
      best := ms[0];
      for i := 1 to |ms|
        invariant best == Newest(ms[..i])
      {
        assert ms[..i + 1][..i] == ms[..i];
        var newer := Newer(ms[i].version, best.version);
        if newer { best := ms[i]; }
      }
      assert ms[..|ms|] == ms;
    }

    /** `intactInstall`: the install as it stands, when it needs no change; it writes nothing. */
    method IntactInstall(version: string, code: Hash, page: bool, private: bool) returns (answer: Option<Answer>)
      requires IsVersion(version)
      ensures answer == Fast(View(), version, code, page, private)
      ensures var full := Full(View(), version, code, page);
        answer == if private && full.folder == View() then Some(full.answer) else None
    {
      FastIsFullWithoutChange(View(), version, code, page, private);
      var ms := Records(manifest);
      LookedUpHas(ms, version);
      if page && version !in pages { return None; }
      if LookedUp(ms, version) != Some(Recorded(version, FileName(version), code)) { return None; }
      var all := Every(ms);
      if !all { return None; }
      var newest := Reduce(ms);
      if launcher != Some(Launcher(newest.version, newest.sha)) { return None; }
      if !private { return None; }
      return Some(Answer(newest.version, FileName(version)));
    }

    /** `installBridge`: whichever way it goes, the folder ends as the full install leaves it, or the install was refused. */
    method InstallBridge(version: string, code: Hash, page: bool, private: bool) returns (r: Result)
      modifies this
      ensures r.NotAVersion? <==> !IsVersion(version)
      ensures r.NotPrivate? <==> IsVersion(version) && !private
      ensures !r.Ok? ==> View() == old(View())
      ensures r.Ok? ==> Installed(View(), r.answer) == Full(old(View()), version, code, page)
    {
      hide IsVersion, Intact, Order, Kept, With, Newest, LookedUp;
      if !IsVersion(version) { return NotAVersion; }
      var intact := IntactInstall(version, code, page, private);
      if intact.Some? { return Ok(intact.value); }
      if !private { return NotPrivate; }
      var file := FileName(version);
      if file !in files || files[file] != code { files := files[file := code]; }
      assert files == old(files)[file := code];
      if page { pages := pages + {version}; }
      var ms := With(Records(manifest), Recorded(version, file, code));
      NewIsKept(Records(manifest), Recorded(version, file, code), files);
      KeptIsIntact(ms, files);
      var kept := Filter(ms);
      manifest := Some(kept);
      var newest := Reduce(kept);
      var wanted := Launcher(newest.version, newest.sha);
      if launcher != Some(wanted) { launcher := Some(wanted); }
      return Ok(Answer(newest.version, file));
    }
  }
}
