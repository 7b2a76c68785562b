/** What the mirror keeps over every history of calls, and what one call leaves behind. */
module MirrorTheorems {
  import opened Common
  import opened Paths
  import opened Mirror
  import opened MirrorPass

  /** Where `sync_all` puts the object of a key. */
  function PlaceOf(key: Key): Path {
    Place(LocalKey(key))
  }

  function Places(keys: set<Key>): (place: map<Key, Path>)
    ensures place.Keys == keys
  {
    map k | k in keys :: PlaceOf(k)
  }

  /** The objects have distinct keys, as S3 lists them, all among `keys` and below `users/`; and what a download
      delivers is what the ETag says. */
  ghost predicate Proper(objs: seq<Object>, keys: set<Key>, digest: ETag -> Content) {
    && (forall i :: 0 <= i < |objs| ==> objs[i].key in keys && StartsWith(objs[i].key, "users/"))
    && (forall i, j :: 0 <= i < j < |objs| ==> objs[i].key != objs[j].key)
    && (forall i :: 0 <= i < |objs| && objs[i].fetch.Delivers? ==> objs[i].fetch.content == digest(objs[i].etag))
  }

  lemma ItemIsPlaced(scope: Scope, o: Object)
    requires StartsWith(o.key, "users/")
    ensures ItemOf(scope, o).local == LocalKey(o.key) && ItemOf(scope, o).path == PlaceOf(o.key)
  {
    BelowUsers(o.key);
  }

  ghost predicate FromListing(scope: Scope, objs: seq<Object>, it: Item) {
    exists j :: 0 <= j < |objs| && it == ItemOf(scope, objs[j])
  }

  lemma {:induction false} ItemsAreListed(scope: Scope, objs: seq<Object>)
    ensures forall i :: 0 <= i < |Items(scope, objs)| ==> FromListing(scope, objs, Items(scope, objs)[i])
  {
    if objs != [] {
      var front, items := objs[..|objs| - 1], Items(scope, objs);
      var before := Items(scope, front);
      ItemsAreListed(scope, front);
      forall i | 0 <= i < |items| ensures FromListing(scope, objs, items[i]) {
        if i < |before| {
          assert items[i] == before[i] && FromListing(scope, front, before[i]);
          var j :| 0 <= j < |front| && before[i] == ItemOf(scope, front[j]);
          assert objs[j] == front[j];
        } else {
          assert items[i] == ItemOf(scope, objs[|objs| - 1]);
        }
      }
    }
  }

  lemma {:induction false} ItemsAreDistinct(scope: Scope, objs: seq<Object>)
    requires forall i, j :: 0 <= i < j < |objs| ==> objs[i].key != objs[j].key
    ensures DistinctKeys(Items(scope, objs))
  {
    if objs != [] {
      var front := objs[..|objs| - 1];
      var before := Items(scope, front);
      ItemsAreDistinct(scope, front);
      ItemsAreListed(scope, front);
      forall i | 0 <= i < |before| ensures before[i].key != objs[|objs| - 1].key {
        assert FromListing(scope, front, before[i]);
        var j :| 0 <= j < |front| && before[i] == ItemOf(scope, front[j]);
        assert objs[j] == front[j];
      }
    }
  }

  /** Each item has the local key and path of its key. */
  ghost predicate Named(items: seq<Item>) {
    forall i :: 0 <= i < |items| ==> items[i].local == LocalKey(items[i].key) && items[i].path == PlaceOf(items[i].key)
  }

  /** The items come from the listing, and inherit what is proper about it. */
  lemma ItemsAreProper(scope: Scope, objs: seq<Object>, keys: set<Key>, digest: ETag -> Content)
    requires Proper(objs, keys, digest)
    ensures var items := Items(scope, objs); Placed(items, Places(keys)) && DistinctKeys(items) && Honest(items, digest) && Named(items)
  {
    var items := Items(scope, objs);
    ItemsAreDistinct(scope, objs);
    ItemsAreListed(scope, objs);
    forall i | 0 <= i < |items|
      ensures items[i].local == LocalKey(items[i].key) && items[i].path == PlaceOf(items[i].key) && items[i].key in keys
      ensures items[i].fetch.Delivers? ==> items[i].fetch.content == digest(items[i].etag)
    {
      assert FromListing(scope, objs, items[i]);
      var j :| 0 <= j < |objs| && items[i] == ItemOf(scope, objs[j]);
      ItemIsPlaced(scope, objs[j]);
    }
  }

  /******* Calls *******/

  datatype Call =
    | AllCall(bucket: seq<Object>, username: string, project: string, cleanFirst: bool, faults: Faults)
    | ToolCall(bucket: seq<Object>, prefix: string, raisesAt: Option<nat>, faults: Faults)

  function Effect(d: Disk, c: Call): Outcome {
    match c
    case AllCall(bucket, username, project, cleanFirst, f) => SyncedAll(d, bucket, All(username, project), cleanFirst, f)
    case ToolCall(bucket, prefix, raisesAt, f) => SyncedTool(d, bucket, prefix, raisesAt, f)
  }

  /** The objects a call gets to see. */
  function Seen(c: Call): seq<Object> {
    match c
    case AllCall(bucket, _, _, _, f) => if f.lists then Listed(bucket, "users/") else []
    case ToolCall(bucket, prefix, raisesAt, _) => Arriving(bucket, prefix, raisesAt)
  }

  function ScopeOf(c: Call): Scope {
    if c.AllCall? then All(c.username, c.project) else Tool
  }

  /** The disk when the pass starts. */
  function Ready(d: Disk, c: Call): Disk {
    if c.AllCall? && Seen(c) != [] then Prepared(d, ScopeOf(c), c.cleanFirst, c.faults) else d
  }

  /** The pass of a call. */
  function PassOf(d: Disk, c: Call): Pass {
    PullItems(Opening(Ready(d, c), c.faults.loads), Items(ScopeOf(c), Seen(c)))
  }

  /** The call ends by an exception, without saving the cache. */
  predicate Raises(d: Disk, c: Call) {
    Effect(d, c).report.Raised?
  }

  /** What the orphan pass removes. */
  function Swept(d: Disk, c: Call): set<Path> {
    if c.ToolCall? || PassOf(d, c).aborted then {} else Orphans(PassOf(d, c).files, PassOf(d, c).locals) - c.faults.undeletable
  }

  /** Both calls in one shape: files after the pass, less what the orphan pass removes, and the new cache if
      it was saved. */
  ghost predicate Shape(d: Disk, c: Call, r: Pass, e: Outcome) {
    && (e.report.Raised? <==> r.aborted || (c.ToolCall? && c.raisesAt.Some?))
    && e.disk.files == r.files - Swept(d, c)
    && e.disk.saved == if c.faults.saves && !e.report.Raised? then r.etags else Ready(d, c).saved
  }

  lemma AllIsPass(d: Disk, c: Call)
    requires c.AllCall? && Seen(c) != []
    ensures Shape(d, c, PassOf(d, c), Effect(d, c))
  {
    PassIsPull(d, c);
    assert PassOf(d, c).aborted ==> PassOf(d, c).files - Swept(d, c) == PassOf(d, c).files;
  }

  lemma PassIsPull(d: Disk, c: Call)
    ensures PassOf(d, c) == Pull(Opening(Ready(d, c), c.faults.loads), ScopeOf(c), Seen(c))
  {
    PullIsPullItems(Opening(Ready(d, c), c.faults.loads), ScopeOf(c), Seen(c));
  }

  lemma ToolIsPass(d: Disk, c: Call)
    requires c.ToolCall?
    ensures Shape(d, c, PassOf(d, c), Effect(d, c))
  {
    PullIsPullItems(Opening(d, c.faults.loads), Tool, Seen(c));
    assert PassOf(d, c).files - Swept(d, c) == PassOf(d, c).files;
  }

  lemma EffectIsPass(d: Disk, c: Call)
    ensures if Seen(c) == [] && c.AllCall? then Effect(d, c) == Outcome(d, if c.faults.lists then NothingListed else Report.Raised)
            else Shape(d, c, PassOf(d, c), Effect(d, c))
  {
    if c.ToolCall? { ToolIsPass(d, c); } else if Seen(c) != [] { AllIsPass(d, c); }
  }

  function After(calls: seq<Call>): Disk {
    if calls == [] then Disk(map[], map[]) else Effect(After(calls[..|calls| - 1]), calls[|calls| - 1]).disk
  }

  /** A file whose key has a saved ETag holds the content with that ETag. */
  ghost predicate SoundDisk(d: Disk, keys: set<Key>, digest: ETag -> Content) {
    Sound(d.files, d.saved, Places(keys), digest)
  }

  lemma ReadyIsSound(d: Disk, c: Call, keys: set<Key>, digest: ETag -> Content)
    requires SoundDisk(d, keys, digest)
    ensures SoundDisk(Ready(d, c), keys, digest)
  {}

  /** One call that saves its cache, or finds nothing listed, keeps the cache sound, whatever downloads fail. */
  lemma SavedCallKeepsSound(d: Disk, c: Call, keys: set<Key>, digest: ETag -> Content)
    requires Apart(Places(keys)) && Proper(Seen(c), keys, digest) && SoundDisk(d, keys, digest)
    requires c.faults.saves && !Raises(d, c)
    ensures SoundDisk(Effect(d, c).disk, keys, digest)
  {
    EffectIsPass(d, c);
    ReadyIsSound(d, c, keys, digest);
    ItemsAreProper(ScopeOf(c), Seen(c), keys, digest);
    PullKeepsSound(Opening(Ready(d, c), c.faults.loads), Items(ScopeOf(c), Seen(c)), Places(keys), digest);
  }

  /******* Without saving *******/

  lemma NamedLocals(items: seq<Item>, i: nat, j: nat)
    requires i < |items| && j < |items| && Named(items) && BelowTools(items[i].path) && items[j].local == Posix(items[i].path)
    ensures items[j].path == items[i].path
  {
    PlaceIsReal(items[i].local);
    PlaceOfPosix(items[i].path);
  }

  /** The orphan pass spares the file of an item exactly when the local key of the item is plain. */
  lemma SparedIffPlain(items: seq<Item>, place: map<Key, Path>, i: nat)
    requires i < |items| && Named(items) && Apart(place) && Placed(items, place) && BelowTools(items[i].path)
    ensures Posix(items[i].path) in Locals(items) <==> Plain(items[i].local)
  {
    var it := items[i];
    PlainIsPosix(it.local);
    if Plain(it.local) {
      assert it.local in Locals(items);
    }
    if Posix(it.path) in Locals(items) {
      var j :| 0 <= j < |items| && items[j].local == Posix(it.path);
      NamedLocals(items, i, j);
      assert items[j].key == it.key;
    }
  }

  /** The item is downloaded and then removed as an orphan. */
  predicate Unlisted(c: Call, it: Item) {
    c.AllCall? && BelowTools(it.path) && !Plain(it.local) && it.path !in c.faults.undeletable
  }

  function ItemsOf(c: Call): seq<Item> {
    Items(ScopeOf(c), Seen(c))
  }

  /** The state in which the pass of a call starts. */
  function Start(d: Disk, c: Call): Pass {
    Opening(Ready(d, c), c.faults.loads)
  }

  /** How many of its objects in scope a call deals with. */
  function ReachOf(d: Disk, c: Call): (k: nat)
    ensures k <= |ItemsOf(c)|
  {
    Reach(Start(d, c), ItemsOf(c))
  }

  /** The facts about one pass, put together. */
  lemma PassFacts(d: Disk, c: Call, keys: set<Key>, digest: ETag -> Content)
    requires Apart(Places(keys)) && Proper(Seen(c), keys, digest)
    ensures var items := ItemsOf(c);
      && Placed(items, Places(keys)) && DistinctKeys(items) && Honest(items, digest) && Named(items)
      && Summary(Start(d, c), PassOf(d, c), items, ReachOf(d, c))
  {
    ItemsAreProper(ScopeOf(c), Seen(c), keys, digest);
    PullSummary(Start(d, c), ItemsOf(c), Places(keys));
  }

  lemma UnsavedBySwept(d: Disk, c: Call, keys: set<Key>, digest: ETag -> Content)
    requires Apart(Places(keys)) && Proper(Seen(c), keys, digest) && SoundDisk(d, keys, digest)
    requires Seen(c) != [] && (Raises(d, c) || !c.faults.saves)
    ensures SoundDisk(Effect(d, c).disk, keys, digest) <==>
      AllHarmless(Start(d, c), ItemsOf(c)[..ReachOf(d, c)], Ready(d, c).saved, Swept(d, c), digest)
  {
    EffectIsPass(d, c);
    OldCacheAfterPass(d, c, keys, digest);
  }

  lemma OldCacheAfterPass(d: Disk, c: Call, keys: set<Key>, digest: ETag -> Content)
    requires Apart(Places(keys)) && Proper(Seen(c), keys, digest) && SoundDisk(d, keys, digest)
    ensures Sound(PassOf(d, c).files - Swept(d, c), Ready(d, c).saved, Places(keys), digest) <==>
      AllHarmless(Start(d, c), ItemsOf(c)[..ReachOf(d, c)], Ready(d, c).saved, Swept(d, c), digest)
  {
    ReadyIsSound(d, c, keys, digest);
    PassFacts(d, c, keys, digest);
    OldCacheSoundExactly(Start(d, c), PassOf(d, c), ItemsOf(c)[..ReachOf(d, c)], Swept(d, c), Ready(d, c).saved, Places(keys), digest);
  }

  /** A download that an unsaved call may make: the saved cache has no ETag for the key, or one for the same content,
      or the file is deleted again as an orphan. */
  ghost predicate Benign(d: Disk, c: Call, i: nat, digest: ETag -> Content)
    requires i < |ItemsOf(c)| && ItemsOf(c)[i].fetch.Delivers?
  {
    var it, saved := ItemsOf(c)[i], Ready(d, c).saved;
    || it.key !in saved
    || digest(saved[it.key]) == it.fetch.content
    || (ReachOf(d, c) == |ItemsOf(c)| && Unlisted(c, it))
  }

  ghost predicate AllBenign(d: Disk, c: Call, digest: ETag -> Content) {
    forall i :: 0 <= i < ReachOf(d, c) && Downloads(Start(d, c), ItemsOf(c)[i]) ==> Benign(d, c, i, digest)
  }

  /** When a call with a sound cache does not save it, because it raised or the write failed, the old cache is
      sound for the new files exactly when every download, before the object that stopped the call, was benign. */
  lemma UnsavedCallSoundExactly(d: Disk, c: Call, keys: set<Key>, digest: ETag -> Content)
    requires Apart(Places(keys)) && Proper(Seen(c), keys, digest) && SoundDisk(d, keys, digest)
    requires Seen(c) != [] && (Raises(d, c) || !c.faults.saves)
    ensures SoundDisk(Effect(d, c).disk, keys, digest) <==> AllBenign(d, c, digest)
  {
    UnsavedBySwept(d, c, keys, digest);
    HarmlessAreBenign(d, c, keys, digest);
  }

  lemma HarmlessAreBenign(d: Disk, c: Call, keys: set<Key>, digest: ETag -> Content)
    requires Apart(Places(keys)) && Proper(Seen(c), keys, digest)
    ensures AllHarmless(Start(d, c), ItemsOf(c)[..ReachOf(d, c)], Ready(d, c).saved, Swept(d, c), digest) <==> AllBenign(d, c, digest)
  {
    var s, items, k := Start(d, c), ItemsOf(c), ReachOf(d, c);
    var seen := items[..k];
    forall i | 0 <= i < k && Downloads(s, items[i])
      ensures seen[i] == items[i] && (Harmless(seen[i], Ready(d, c).saved, Swept(d, c), digest) <==> Benign(d, c, i, digest))
    {
      HarmlessIsBenign(d, c, keys, digest, i);
    }
    assert forall i :: 0 <= i < k ==> seen[i] == items[i];
  }

  lemma HarmlessIsBenign(d: Disk, c: Call, keys: set<Key>, digest: ETag -> Content, i: nat)
    requires Apart(Places(keys)) && Proper(Seen(c), keys, digest) && i < ReachOf(d, c) && Downloads(Start(d, c), ItemsOf(c)[i])
    ensures Harmless(ItemsOf(c)[i], Ready(d, c).saved, Swept(d, c), digest) <==> Benign(d, c, i, digest)
  {
    PassFacts(d, c, keys, digest);
    assert ItemsOf(c)[..ReachOf(d, c)][i] == ItemsOf(c)[i];
    SweptIsUnlisted(d, c, keys, digest, i);
  }

  lemma SweptIsUnlisted(d: Disk, c: Call, keys: set<Key>, digest: ETag -> Content, i: nat)
    requires Apart(Places(keys)) && Proper(Seen(c), keys, digest)
    requires i < |ItemsOf(c)|
    requires var it := ItemsOf(c)[i]; var r := PassOf(d, c);
      !r.aborted ==> it.path in r.files && r.locals == Locals(ItemsOf(c))
    ensures var it := ItemsOf(c)[i]; it.path in Swept(d, c) <==> !PassOf(d, c).aborted && Unlisted(c, it)
  {
    var items := ItemsOf(c);
    ItemsAreProper(ScopeOf(c), Seen(c), keys, digest);
    if BelowTools(items[i].path) { SparedIffPlain(items, Places(keys), i); }
  }

  /******* Histories *******/

  lemma NothingSeen(d: Disk, c: Call)
    requires Seen(c) == [] && (Raises(d, c) || !c.faults.saves)
    ensures Effect(d, c).disk == d
  {
    EffectIsPass(d, c);
    assert ItemsOf(c) == [];
  }

  /** The call saved its cache, or made only benign downloads. */
  ghost predicate NoHarm(d: Disk, c: Call, digest: ETag -> Content) {
    (c.faults.saves && !Raises(d, c)) || AllBenign(d, c, digest)
  }

  lemma CallSoundExactly(d: Disk, c: Call, keys: set<Key>, digest: ETag -> Content)
    requires Apart(Places(keys)) && Proper(Seen(c), keys, digest) && SoundDisk(d, keys, digest)
    ensures SoundDisk(Effect(d, c).disk, keys, digest) <==> NoHarm(d, c, digest)
  {
    if c.faults.saves && !Raises(d, c) {
      SavedCallKeepsSound(d, c, keys, digest);
    } else if Seen(c) == [] {
      NothingSeen(d, c);
      assert ItemsOf(c) == [];
    } else {
      UnsavedCallSoundExactly(d, c, keys, digest);
    }
  }

  ghost predicate AllProper(calls: seq<Call>, keys: set<Key>, digest: ETag -> Content) {
    forall i :: 0 <= i < |calls| ==> Proper(Seen(calls[i]), keys, digest)
  }

  /** The cache is sound in every state of the history. */
  ghost predicate AlwaysSound(calls: seq<Call>, keys: set<Key>, digest: ETag -> Content) {
    SoundDisk(After(calls), keys, digest) && (calls != [] ==> AlwaysSound(calls[..|calls| - 1], keys, digest))
  }

  /** No call of the history both fails to save its cache and makes a download that is not benign. */
  ghost predicate NeverHarms(calls: seq<Call>, digest: ETag -> Content) {
    calls != [] ==>
      var before := calls[..|calls| - 1]; NeverHarms(before, digest) && NoHarm(After(before), calls[|calls| - 1], digest)
  }

  /** Over every history of both calls, with any filters, cleaning, failed downloads, exceptions, undeletable files and
      caches that cannot be read or written: a file whose key has a saved ETag holds the content with that ETag in every
      state, if and only if no call that does not save makes a harmful download. */
  lemma {:induction false} CacheSoundExactly(calls: seq<Call>, keys: set<Key>, digest: ETag -> Content)
    requires Apart(Places(keys)) && AllProper(calls, keys, digest)
    ensures AlwaysSound(calls, keys, digest) <==> NeverHarms(calls, digest)
  {
    if calls != [] {
      var before := calls[..|calls| - 1];
      CacheSoundExactly(before, keys, digest);
      if AlwaysSound(before, keys, digest) { CallSoundExactly(After(before), calls[|calls| - 1], keys, digest); }
    }
  }
}
