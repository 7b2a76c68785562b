/** When the tree below the `tools` directories is an exact mirror, and when a repeated call is idle. */
module MirrorExactness {
  import opened Text
  import opened Paths
  import opened Mirror
  import opened MirrorPass
  import opened MirrorTheorems

  ghost predicate RealPaths(files: map<Path, Content>) {
    forall p <- files :: AreNames(p)
  }

  lemma {:induction false} PullKeepsReal(s: Pass, items: seq<Item>)
    requires RealPaths(s.files) && forall i :: 0 <= i < |items| ==> AreNames(items[i].path)
    ensures RealPaths(PullItems(s, items).files)
  {
    if items != [] { PullKeepsReal(s, items[..|items| - 1]); }
  }

  lemma PassKeepsReal(d: Disk, c: Call)
    requires RealPaths(d.files)
    ensures RealPaths(PassOf(d, c).files)
  {
    var items := ItemsOf(c);
    ItemsAreListed(ScopeOf(c), Seen(c));
    forall i | 0 <= i < |items| ensures AreNames(items[i].path) {
      assert FromListing(ScopeOf(c), Seen(c), items[i]);
      PlaceIsReal(items[i].local);
    }
    PullKeepsReal(Start(d, c), items);
  }

  /** The local tree holds only real paths, after every history. */
  lemma {:induction false} HistoryKeepsReal(calls: seq<Call>)
    ensures RealPaths(After(calls).files)
  {
    if calls != [] {
      var d, c := After(calls[..|calls| - 1]), calls[|calls| - 1];
      HistoryKeepsReal(calls[..|calls| - 1]);
      PassKeepsReal(d, c);
      EffectIsPass(d, c);
    }
  }

  /** The files below the `tools` directories are exactly the images of the objects in scope that lie there, each
      with the content of its ETag. */
  ghost predicate Mirrors(files: map<Path, Content>, items: seq<Item>, digest: ETag -> Content) {
    OnlyImages(files, items) && AllImages(files, items, digest)
  }

  ghost predicate IsImage(items: seq<Item>, p: Path) {
    exists i :: 0 <= i < |items| && items[i].path == p
  }

  ghost predicate OnlyImages(files: map<Path, Content>, items: seq<Item>) {
    forall p <- files :: BelowTools(p) ==> IsImage(items, p)
  }

  ghost predicate AllImages(files: map<Path, Content>, items: seq<Item>, digest: ETag -> Content) {
    forall i :: 0 <= i < |items| && BelowTools(items[i].path) ==>
      items[i].path in files && files[items[i].path] == digest(items[i].etag)
  }

  /** The local keys of what ends up below a `tools` directory are plain. */
  ghost predicate PlainBelowTools(items: seq<Item>) {
    forall i :: 0 <= i < |items| && BelowTools(items[i].path) ==> Plain(items[i].local)
  }

  /** The call is a `sync_all` with a listing, from a sound disk, in which nothing fails. */
  ghost predicate Undisturbed(d: Disk, c: Call, keys: set<Key>, digest: ETag -> Content) {
    && c.AllCall? && c.faults.lists && Seen(c) != [] && c.faults.undeletable == {} && Available(ItemsOf(c))
    && Apart(Places(keys)) && Proper(Seen(c), keys, digest) && SoundDisk(d, keys, digest) && RealPaths(d.files)
  }

  ghost predicate Arrived(r: Pass, it: Item, digest: ETag -> Content) {
    && it.path in r.files && r.files[it.path] == digest(it.etag)
    && it.key in r.etags && r.etags[it.key] == it.etag
  }

  /** The pass of an undisturbed call brings in every object; the orphan pass removes exactly those among them
      that are not plain. */
  lemma UndisturbedPass(d: Disk, c: Call, keys: set<Key>, digest: ETag -> Content)
    requires Undisturbed(d, c, keys, digest)
    ensures var items, r := ItemsOf(c), PassOf(d, c);
      && !r.aborted && r.locals == Locals(items) && Named(items)
      && forall i :: 0 <= i < |items| ==> Arrived(r, items[i], digest) && (items[i].path in Swept(d, c) <==> Unlisted(c, items[i]))
  {
    var items, r := ItemsOf(c), PassOf(d, c);
    PassFacts(d, c, keys, digest);
    ReadyIsSound(d, c, keys, digest);
    assert ReachOf(d, c) == |items|;
    AllArrive(Start(d, c), r, items, Places(keys), digest);
    forall i | 0 <= i < |items| ensures items[i].path in Swept(d, c) <==> Unlisted(c, items[i]) {
      SweptIsUnlisted(d, c, keys, digest, i);
    }
  }

  lemma OnlyImagesRemain(d: Disk, c: Call, keys: set<Key>, digest: ETag -> Content)
    requires Undisturbed(d, c, keys, digest)
    ensures OnlyImages(PassOf(d, c).files - Swept(d, c), ItemsOf(c))
  {
    var items, r := ItemsOf(c), PassOf(d, c);
    UndisturbedPass(d, c, keys, digest);
    PassKeepsReal(d, c);
    forall p <- r.files - Swept(d, c) | BelowTools(p) ensures IsImage(items, p) {
      assert Posix(p) in Locals(items);
      var j :| 0 <= j < |items| && items[j].local == Posix(p);
      PlaceOfPosix(p);
      assert items[j].path == p;
    }
  }

  /** What a sweep of the items that are not plain leaves of the images. */
  lemma ImagesAfterSweep(r: Pass, items: seq<Item>, swept: set<Path>, digest: ETag -> Content)
    requires forall i :: 0 <= i < |items| ==>
      Arrived(r, items[i], digest) && (items[i].path in swept <==> BelowTools(items[i].path) && !Plain(items[i].local))
    ensures AllImages(r.files - swept, items, digest) <==> PlainBelowTools(items)
  {}

  lemma UndisturbedSweep(d: Disk, c: Call, keys: set<Key>, digest: ETag -> Content)
    requires Undisturbed(d, c, keys, digest)
    ensures AllImages(PassOf(d, c).files - Swept(d, c), ItemsOf(c), digest) <==> PlainBelowTools(ItemsOf(c))
  {
    UndisturbedPass(d, c, keys, digest);
    ImagesAfterSweep(PassOf(d, c), ItemsOf(c), Swept(d, c), digest);
  }

  lemma UndisturbedEffect(d: Disk, c: Call, keys: set<Key>, digest: ETag -> Content)
    requires Undisturbed(d, c, keys, digest)
    ensures Effect(d, c).report.Synced? && Effect(d, c).disk.files == PassOf(d, c).files - Swept(d, c)
  {
    UndisturbedPass(d, c, keys, digest);
    AllIsPass(d, c);
  }

  /** After an undisturbed `sync_all`, whatever the filter, nothing remains below the `tools` directories but
      images of the objects in scope; and the tree there is their exact mirror if and only if their local keys
      are plain. */
  lemma MirrorIsExactIffPlain(d: Disk, c: Call, keys: set<Key>, digest: ETag -> Content)
    requires Undisturbed(d, c, keys, digest)
    ensures var e, items := Effect(d, c), ItemsOf(c);
      && e.report.Synced? && OnlyImages(e.disk.files, items)
      && (Mirrors(e.disk.files, items, digest) <==> PlainBelowTools(items))
  {
    UndisturbedEffect(d, c, keys, digest);
    OnlyImagesRemain(d, c, keys, digest);
    UndisturbedSweep(d, c, keys, digest);
  }

  /** The same request again, without cleaning. */
  function Again(c: Call, f: Faults): Call
    requires c.AllCall?
  {
    c.(cleanFirst := false, faults := f)
  }

  /** The pass of a repeated call, from its first state on. */
  lemma AgainPass(d: Disk, c: Call, f: Faults)
    requires c.AllCall? && c.faults.lists && f.lists && f.loads
    ensures ItemsOf(Again(c, f)) == ItemsOf(c) && Seen(Again(c, f)) == Seen(c) && Ready(d, Again(c, f)) == d
    ensures PassOf(d, Again(c, f)) == PullItems(Pass(d.files, d.saved, {}, 0, 0, 0, false), ItemsOf(c))
  {}

  /** The disk holds the files and ETags of every object that has not been deleted. */
  ghost predicate Holds(d: Disk, items: seq<Item>) {
    forall i :: 0 <= i < |items| ==>
      && items[i].key in d.saved && d.saved[items[i].key] == items[i].etag
      && (items[i].path in d.files <==> !(BelowTools(items[i].path) && !Plain(items[i].local)))
  }

  lemma UndisturbedHolds(d: Disk, c: Call, keys: set<Key>, digest: ETag -> Content)
    requires Undisturbed(d, c, keys, digest) && c.faults.saves
    ensures Holds(Effect(d, c).disk, ItemsOf(c)) && Orphans(Effect(d, c).disk.files, Locals(ItemsOf(c))) == {}
  {
    UndisturbedPass(d, c, keys, digest);
    AllIsPass(d, c);
    var items, r := ItemsOf(c), PassOf(d, c);
    HoldsAfterSweep(r, items, Swept(d, c), digest);
    assert Effect(d, c).disk == Disk(r.files - Swept(d, c), r.etags);
  }

  lemma HoldsAfterSweep(r: Pass, items: seq<Item>, swept: set<Path>, digest: ETag -> Content)
    requires forall i :: 0 <= i < |items| ==>
      Arrived(r, items[i], digest) && (items[i].path in swept <==> BelowTools(items[i].path) && !Plain(items[i].local))
    ensures Holds(Disk(r.files - swept, r.etags), items)
  {}

  /** From a disk that holds everything, the repeat finds everything in the cache. */
  lemma IdleFrom(d: Disk, c: Call, f: Faults)
    requires c.AllCall? && c.faults.lists && f.lists && f.loads && Seen(c) != [] && Available(ItemsOf(c))
    requires Holds(d, ItemsOf(c)) && PlainBelowTools(ItemsOf(c)) && Orphans(d.files, Locals(ItemsOf(c))) == {}
    ensures Effect(d, Again(c, f)) == Outcome(d, Synced(0, |ItemsOf(c)|, 0))
  {
    AgainPass(d, c, f);
    var s := Pass(d.files, d.saved, {}, 0, 0, 0, false);
    AllCachedPass(s, ItemsOf(c));
    IdlePassIdleCall(d, Again(c, f), |ItemsOf(c)|);
  }

  lemma IdlePassIdleCall(d: Disk, c: Call, n: nat)
    requires c.AllCall? && Seen(c) != [] && Ready(d, c) == d
    requires PassOf(d, c) == Pass(d.files, d.saved, Locals(ItemsOf(c)), 0, n, 0, false)
    requires Orphans(d.files, Locals(ItemsOf(c))) == {}
    ensures Effect(d, c) == Outcome(d, Synced(0, n, 0))
  {
    PassIsPull(d, c);
    assert d.files - {} == d.files;
  }

  /** From a disk that lacks an object, it downloads. */
  lemma BusyFrom(d: Disk, c: Call, f: Faults, keys: set<Key>, digest: ETag -> Content, n: nat)
    requires c.AllCall? && c.faults.lists && f.lists && f.loads && Available(ItemsOf(c))
    requires Apart(Places(keys)) && Proper(Seen(c), keys, digest) && Holds(d, ItemsOf(c)) && !PlainBelowTools(ItemsOf(c))
    ensures Effect(d, Again(c, f)) != Outcome(d, Synced(0, n, 0))
  {
    var items := ItemsOf(c);
    var i :| 0 <= i < |items| && BelowTools(items[i].path) && !Plain(items[i].local);
    AgainPass(d, c, f);
    ItemsAreProper(ScopeOf(c), Seen(c), keys, digest);
    MissingIsDownloaded(Pass(d.files, d.saved, {}, 0, 0, 0, false), items, Places(keys), i);
    if Effect(d, Again(c, f)).report.Synced? { ReportIsPass(d, Again(c, f)); }
  }

  lemma ReportIsPass(d: Disk, c: Call)
    requires c.AllCall? && Effect(d, c).report.Synced?
    ensures Effect(d, c).report.synced == PassOf(d, c).synced && Effect(d, c).report.skipped == PassOf(d, c).skipped
  {
    PassIsPull(d, c);
  }

  /** A repeated call on an unchanged bucket, without cleaning, downloads and deletes nothing and changes nothing,
      if and only if the local keys are plain; otherwise it downloads again what it had deleted. */
  lemma RepeatIsIdleIffPlain(d: Disk, c: Call, keys: set<Key>, digest: ETag -> Content, f: Faults)
    requires Undisturbed(d, c, keys, digest) && c.faults.saves && f.lists && f.loads
    ensures var d1 := Effect(d, c).disk;
      Effect(d1, Again(c, f)) == Outcome(d1, Synced(0, |ItemsOf(c)|, 0)) <==> PlainBelowTools(ItemsOf(c))
  {
    var d1 := Effect(d, c).disk;
    UndisturbedHolds(d, c, keys, digest);
    if PlainBelowTools(ItemsOf(c)) {
      IdleFrom(d1, c, f);
    } else {
      BusyFrom(d1, c, f, keys, digest, |ItemsOf(c)|);
    }
  }

  /** A `sync_all` that ends normally has counted every object in scope once: synced, skipped, or failed and
      only logged. */
  lemma EveryObjectIsCounted(d: Disk, c: Call)
    requires c.AllCall? && Effect(d, c).report.Synced?
    ensures var e := Effect(d, c).report; e.synced + e.skipped + PassOf(d, c).failed == |ItemsOf(c)|
  {
    ReportIsPass(d, c);
    PassIsPull(d, c);
    EveryItemIsCounted(Start(d, c), ItemsOf(c));
  }

  /******* Two ways to fall short *******/

  /** A bucket with one object. */
  function One(key: Key, etag: ETag, content: Content): seq<Object> {
    [Object(key, etag, false, false, Delivers(content))]
  }

  /** A new version whose ETag is not saved: when the bucket goes back to the old version, the call skips it and
      reports success, and the file keeps the other content. */
  lemma FailedSaveLeavesStaleFile(key: Key, before: ETag, after: ETag, m: Content, n: Content)
    requires StartsWith(key, "users/") && Wanted(All("", ""), key) && Plain(LocalKey(key)) && BelowTools(PlaceOf(key))
    requires before != after
    ensures
      var first := AllCall(One(key, before, m), "", "", false, Faults({}, true, true, true));
      var second := AllCall(One(key, after, n), "", "", false, Faults({}, true, true, false));
      var d := Effect(Effect(Disk(map[], map[]), first).disk, second).disk;
      Effect(d, first) == Outcome(d, Synced(0, 1, 0)) && d == Disk(map[PlaceOf(key) := n], map[key := before])
  {
    var first := AllCall(One(key, before, m), "", "", false, Faults({}, true, true, true));
    var second := AllCall(One(key, after, n), "", "", false, Faults({}, true, true, false));
    OneObjectCall(Disk(map[], map[]), first, key, before, m);
    OneObjectCall(Disk(map[PlaceOf(key) := m], map[key := before]), second, key, after, n);
    OneObjectCall(Disk(map[PlaceOf(key) := n], map[key := before]), first, key, before, m);
  }

  lemma OneObjectPass(d: Disk, c: Call, key: Key, etag: ETag, content: Content)
    requires StartsWith(key, "users/") && Wanted(All("", ""), key)
    requires c.AllCall? && c.bucket == One(key, etag, content) && c.username == "" && c.project == "" && c.faults.lists
    ensures Seen(c) == c.bucket
    ensures Pull(Opening(d, true), ScopeOf(c), Seen(c)) ==
      Handle(Opening(d, true), Item(key, LocalKey(key), PlaceOf(key), etag, false, false, Delivers(content)))
  {
    var o := c.bucket[0];
    OneIsSeen(c, key, etag, content);
    ItemIsPlaced(ScopeOf(c), o);
    assert [o][..0] == [];
  }

  /** `sync_all` on a bucket with one plain object, when nothing else is on disk. */
  lemma OneObjectCall(d: Disk, c: Call, key: Key, etag: ETag, content: Content)
    requires StartsWith(key, "users/") && Wanted(All("", ""), key) && Plain(LocalKey(key)) && BelowTools(PlaceOf(key))
    requires c.AllCall? && c.bucket == One(key, etag, content) && c.username == "" && c.project == "" && !c.cleanFirst
    requires c.faults.undeletable == {} && c.faults.lists && c.faults.loads && d.files.Keys <= {PlaceOf(key)}
    ensures var hit := key in d.saved && d.saved[key] == etag && PlaceOf(key) in d.files;
      Effect(d, c) ==
        if hit then Outcome(d, Synced(0, 1, 0))
        else Outcome(Disk(map[PlaceOf(key) := content], if c.faults.saves then d.saved[key := etag] else d.saved), Synced(1, 0, 0))
  {
    OneObjectPass(d, c, key, etag, content);
    PlainIsPosix(LocalKey(key));
    var r := Pull(Opening(d, true), ScopeOf(c), Seen(c));
    assert r.files.Keys <= {PlaceOf(key)} && r.locals == {LocalKey(key)};
    assert Orphans(r.files, r.locals) == {};
    assert r.files - {} == r.files && d.files[PlaceOf(key) := content] == map[PlaceOf(key) := content];
  }

  /** The hypotheses of the mirror theorems are met: by a first sync of a bucket with any one object. */
  lemma FirstSyncIsUndisturbed(key: Key, etag: ETag, content: Content)
    requires StartsWith(key, "users/")
    ensures Undisturbed(Disk(map[], map[]), AllCall(One(key, etag, content), "", "", false, Faults({}, true, true, true)), {key}, _ => content)
  {
    var c := AllCall(One(key, etag, content), "", "", false, Faults({}, true, true, true));
    OneIsSeen(c, key, etag, content);
    AvailableObjects(ScopeOf(c), Seen(c));
  }

  lemma OneIsSeen(c: Call, key: Key, etag: ETag, content: Content)
    requires StartsWith(key, "users/") && c.AllCall? && c.bucket == One(key, etag, content) && c.faults.lists
    ensures Seen(c) == c.bucket
  {
    assert c.bucket[1..] == [] && Listed(c.bucket[1..], "users/") == [];
    assert Seen(c) == [c.bucket[0]] + [];
  }

  lemma AvailableObjects(scope: Scope, objs: seq<Object>)
    requires forall i :: 0 <= i < |objs| ==> objs[i].fetch.Delivers? && !objs[i].blocked && !objs[i].hidden
    ensures Available(Items(scope, objs))
  {
    ItemsAreListed(scope, objs);
    forall i | 0 <= i < |Items(scope, objs)|
      ensures var it := Items(scope, objs)[i]; it.fetch.Delivers? && !it.blocked && !it.hidden
    {
      assert FromListing(scope, objs, Items(scope, objs)[i]);
    }
  }

  /** Whatever key it is: an object in scope whose file lies below `tools` and whose local key is not plain is downloaded
      and then deleted as an orphan, with success reported and its ETag remembered. */
  lemma DeletedAgain(key: Key, etag: ETag, content: Content)
    requires StartsWith(key, "users/") && Wanted(All("", ""), key) && BelowTools(PlaceOf(key)) && !Plain(LocalKey(key))
    ensures Effect(Disk(map[], map[]), AllCall(One(key, etag, content), "", "", false, Faults({}, true, true, true))) ==
            Outcome(Disk(map[], map[key := etag]), Synced(1, 0, 1))
  {
    var c, d := AllCall(One(key, etag, content), "", "", false, Faults({}, true, true, true)), Disk(map[], map[]);
    OneObjectPass(d, c, key, etag, content);
    PlainIsPosix(LocalKey(key));
    var r := Pull(Opening(d, true), ScopeOf(c), Seen(c));
    assert r.files == map[PlaceOf(key) := content] && r.locals == {LocalKey(key)};
    assert Orphans(r.files, r.locals) == {PlaceOf(key)};
    assert r.files - {PlaceOf(key)} == map[];
  }

  /******* Keys that are not plain *******/

  predicate FileName(name: string) {
    !Moving(name) && Free(name, '/')
  }

  /** A key of user `uid` with the given local parts. */
  function KeyWith(uid: string, parts: seq<string>): Key {
    "users/" + uid + "/" + Join(parts, '/')
  }

  lemma KeyWithLocal(uid: string, parts: seq<string>)
    requires Free(uid, '/')
    ensures LocalKey(KeyWith(uid, parts)) == Join(parts, '/')
  {
    var local := Join(parts, '/');
    var rest := uid + ['/'] + local;
    SplitOnce("users", rest);
    SplitOnce(uid, local);
    var key := "users" + ['/'] + rest;
    assert KeyWith(uid, parts) == key;
    assert Split(key, '/') == ["users"] + ([uid] + Split(local, '/'));
    assert Split(key, '/')[2..] == Split(local, '/');
    JoinSplit(local, '/');
  }

  lemma SplitOnce(first: string, rest: string)
    requires Free(first, '/')
    ensures Split(first + ['/'] + rest, '/') == [first] + Split(rest, '/')
  {
    SplitFree(first, '/');
    SplitConcat(first, rest, '/');
  }

  /** `dir`, then a part that is not a name, then `tools` and the file. */
  function Roundabout(dir: string, part: string, name: string): seq<string> {
    [dir, part, "tools", name]
  }

  lemma RoundaboutText(dir: string, part: string, name: string)
    ensures Join(Roundabout(dir, part, name), '/') == dir + "/" + part + "/tools/" + name
  {
    assert [dir, part, "tools", name][1..] == [part, "tools", name];
    assert [part, "tools", name][1..] == ["tools", name];
    assert ["tools", name][1..] == [name];
    assert Join(["tools", name], '/') == "tools/" + name;
    assert Join([part, "tools", name], '/') == part + "/tools/" + name;
  }

  lemma RoundaboutIsWanted(uid: string, dir: string, part: string, name: string)
    requires FileName(name)
    ensures Wanted(All("", ""), KeyWith(uid, Roundabout(dir, part, name)))
  {
    var key, before := KeyWith(uid, Roundabout(dir, part, name)), "users/" + uid + "/" + dir + "/" + part;
    RoundaboutText(dir, part, name);
    assert key == before + "/tools/" + name;
    assert MatchesAt(key, "/tools/", |before|);
    assert key[|key| - 1] == name[|name| - 1] && name[|name| - 1] in name;
  }

  /** Where such a key leads: past an empty part or `.`, or back out of `dir`. */
  lemma RoundaboutPlace(dir: string, part: string, name: string)
    requires FileName(dir) && FileName(name) && Moving(part)
    ensures var local := Join(Roundabout(dir, part, name), '/');
      && Place(local) == DATA_ROOT + (if part == ".." then ["tools", name] else [dir, "tools", name])
      && BelowTools(Place(local)) && !Plain(local)
  {
    var parts, local := Roundabout(dir, part, name), Join(Roundabout(dir, part, name), '/');
    assert Free(part, '/') && AllFree(parts, '/');
    SplitJoin(parts, '/');
    assert local[0] == dir[0] && dir[0] in dir;
    assert Moving(parts[1]);
    assert parts[1..] == [part, "tools", name] && parts[1..][1..] == ["tools", name];
    var at := if part == ".." then DATA_ROOT else DATA_ROOT + [dir];
    assert (DATA_ROOT + [dir])[..|DATA_ROOT|] == DATA_ROOT;
    assert Walk(DATA_ROOT, parts) == Walk(at, ["tools", name]);
    WalkNames(at, ["tools", name]);
    assert Place(local) == at + ["tools", name];
    assert Place(local)[|at|] == "tools";
  }

  /** For every user id, directory and file name: a doubled slash, a part `.` or a part `..` before `tools` makes
      `sync_all` download the object and delete it again. */
  lemma RoundaboutIsDeletedAgain(uid: string, dir: string, part: string, name: string, etag: ETag, content: Content)
    requires Free(uid, '/') && FileName(dir) && FileName(name) && Moving(part)
    ensures var key := KeyWith(uid, Roundabout(dir, part, name));
      Effect(Disk(map[], map[]), AllCall(One(key, etag, content), "", "", false, Faults({}, true, true, true))) ==
      Outcome(Disk(map[], map[key := etag]), Synced(1, 0, 1))
  {
    var key := KeyWith(uid, Roundabout(dir, part, name));
    KeyWithLocal(uid, Roundabout(dir, part, name));
    RoundaboutPlace(dir, part, name);
    RoundaboutIsWanted(uid, dir, part, name);
    assert StartsWith(key, "users/");
    DeletedAgain(key, etag, content);
  }
}
