/** One pass of the syncer over the objects in scope, item by item: what it downloads and what it leaves alone. */
module MirrorPass {
  import opened Paths
  import opened Mirror

  function PullItems(s: Pass, items: seq<Item>): Pass {
    if items == [] then s else Handle(PullItems(s, items[..|items| - 1]), items[|items| - 1])
  }

  /** The objects in scope. */
  function Items(scope: Scope, objs: seq<Object>): seq<Item> {
    if objs == [] then []
    else
      var o := objs[|objs| - 1];
      Items(scope, objs[..|objs| - 1]) + (if Wanted(scope, o.key) then [ItemOf(scope, o)] else [])
  }

  lemma {:induction false} PullIsPullItems(s: Pass, scope: Scope, objs: seq<Object>)
    ensures Pull(s, scope, objs) == PullItems(s, Items(scope, objs))
  {
    if objs != [] {
      var front := Items(scope, objs[..|objs| - 1]);
      PullIsPullItems(s, scope, objs[..|objs| - 1]);
      if Wanted(scope, objs[|objs| - 1].key) {
        assert (front + [ItemOf(scope, objs[|objs| - 1])])[..|front|] == front;
      } else {
        assert front + [] == front;
      }
    }
  }

  /** Keys do not share paths. */
  ghost predicate Apart(place: map<Key, Path>) {
    forall k, l :: k in place && l in place && place[k] == place[l] ==> k == l
  }

  ghost predicate Placed(items: seq<Item>, place: map<Key, Path>) {
    forall i :: 0 <= i < |items| ==> items[i].key in place && place[items[i].key] == items[i].path
  }

  ghost predicate DistinctKeys(items: seq<Item>) {
    forall i, j :: 0 <= i < j < |items| ==> items[i].key != items[j].key
  }

  /** What a download delivers is what the ETag says. */
  ghost predicate Honest(items: seq<Item>, digest: ETag -> Content) {
    forall i :: 0 <= i < |items| && items[i].fetch.Delivers? ==> items[i].fetch.content == digest(items[i].etag)
  }

  /** A file whose key has an ETag holds the content with that ETag. */
  ghost predicate Sound(files: map<Path, Content>, etags: map<Key, ETag>, place: map<Key, Path>, digest: ETag -> Content) {
    && etags.Keys <= place.Keys
    && forall k <- etags :: place[k] in files ==> files[place[k]] == digest(etags[k])
  }

  lemma {:induction false} PullKeepsSound(s: Pass, items: seq<Item>, place: map<Key, Path>, digest: ETag -> Content)
    requires Apart(place) && Placed(items, place) && Honest(items, digest) && Sound(s.files, s.etags, place, digest)
    ensures var r := PullItems(s, items); Sound(r.files, r.etags, place, digest)
  {
    if items != [] { PullKeepsSound(s, items[..|items| - 1], place, digest); }
  }

  /** Each item is counted once. */
  lemma {:induction false} EveryItemIsCounted(s: Pass, items: seq<Item>)
    ensures var r := PullItems(s, items);
      !r.aborted ==> r.synced + r.skipped + r.failed == s.synced + s.skipped + s.failed + |items|
  {
    if items != [] { EveryItemIsCounted(s, items[..|items| - 1]); }
  }

  /******* Item by item *******/

  /** Seen from the start of the pass, the item will be downloaded. */
  predicate Downloads(s: Pass, it: Item) {
    !Cached(s, it) && it.fetch.Delivers?
  }

  predicate Stops(s: Pass, it: Item) {
    !Cached(s, it) && it.fetch.MkdirRaises?
  }

  /** How many items the pass deals with before one stops it. */
  function Reach(s: Pass, items: seq<Item>): (k: nat)
    ensures k <= |items|
    ensures forall i :: 0 <= i < k ==> !Stops(s, items[i])
    ensures k < |items| ==> Stops(s, items[k])
  {
    if items == [] then 0 else
    var k := Reach(s, items[..|items| - 1]);
    if k < |items| - 1 || Stops(s, items[|items| - 1]) then k else |items|
  }

  /** Each of the items that is downloaded arrives at its path and in the cache. */
  ghost predicate Delivered(s: Pass, r: Pass, items: seq<Item>) {
    forall i :: 0 <= i < |items| && Downloads(s, items[i]) ==>
      && items[i].path in r.files && r.files[items[i].path] == items[i].fetch.content
      && items[i].key in r.etags && r.etags[items[i].key] == items[i].etag
  }

  ghost predicate DownloadedTo(s: Pass, items: seq<Item>, p: Path) {
    exists i :: 0 <= i < |items| && Downloads(s, items[i]) && items[i].path == p
  }

  ghost predicate DownloadedFor(s: Pass, items: seq<Item>, k: Key) {
    exists i :: 0 <= i < |items| && Downloads(s, items[i]) && items[i].key == k
  }

  predicate SameAt<K, V(==)>(a: map<K, V>, b: map<K, V>, k: K) {
    if k in a then k in b && a[k] == b[k] else k !in b
  }

  /** Nothing else changes. */
  ghost predicate RestKept(s: Pass, r: Pass, items: seq<Item>) {
    && (forall p :: !DownloadedTo(s, items, p) ==> SameAt(s.files, r.files, p))
    && (forall k :: !DownloadedFor(s, items, k) ==> SameAt(s.etags, r.etags, k))
  }

  function Locals(items: seq<Item>): set<string> {
    set i | 0 <= i < |items| :: items[i].local
  }

  /** The whole effect of a pass that nothing stops, from the state at its start. */
  ghost predicate PassEffect(s: Pass, r: Pass, items: seq<Item>) {
    Delivered(s, r, items) && RestKept(s, r, items) && r.locals == s.locals + Locals(items)
  }

  /** An item is judged at its turn as it was at the start: no earlier item shares its key or path. */
  lemma JudgedAlike(s: Pass, r: Pass, items: seq<Item>, it: Item, place: map<Key, Path>)
    requires RestKept(s, r, items) && Apart(place) && Placed(items + [it], place) && DistinctKeys(items + [it])
    ensures Cached(r, it) <==> Cached(s, it)
    ensures !DownloadedTo(s, items, it.path) && !DownloadedFor(s, items, it.key)
  {
    var all := items + [it];
    assert forall i :: 0 <= i < |items| ==> all[i] == items[i] && all[i].key != all[|items|].key;
    assert place[it.key] == it.path by { assert all[|items|] == it; }
    assert !DownloadedTo(s, items, it.path) && !DownloadedFor(s, items, it.key);
    assert SameAt(s.files, r.files, it.path) && SameAt(s.etags, r.etags, it.key);
  }

  lemma LocalsExtend(items: seq<Item>, it: Item)
    ensures Locals(items + [it]) == Locals(items) + {it.local}
  {
    var all := items + [it];
    assert all[|items|] == it;
    forall l ensures l in Locals(all) <==> l in Locals(items) + {it.local} {
      if l in Locals(items) {
        var i :| 0 <= i < |items| && items[i].local == l;
        assert all[i].local == l;
      }
    }
  }

  lemma HandleExtends(s: Pass, r: Pass, items: seq<Item>, it: Item, place: map<Key, Path>)
    requires PassEffect(s, r, items) && !r.aborted && Apart(place) && Placed(items + [it], place) && DistinctKeys(items + [it])
    requires !Stops(s, it)
    ensures PassEffect(s, Handle(r, it), items + [it]) && !Handle(r, it).aborted
  {
    JudgedAlike(s, r, items, it, place);
    var all, t := items + [it], Handle(r, it);
    assert all[|items|] == it;
    forall i | 0 <= i < |all| && Downloads(s, all[i])
      ensures all[i].path in t.files && t.files[all[i].path] == all[i].fetch.content
      ensures all[i].key in t.etags && t.etags[all[i].key] == all[i].etag
    {
      if i < |items| { assert all[i] == items[i]; assert DownloadedTo(s, items, all[i].path) && DownloadedFor(s, items, all[i].key); }
    }
    RestExtends(s, r, items, it);
    LocalsExtend(items, it);
  }

  lemma RestExtends(s: Pass, r: Pass, items: seq<Item>, it: Item)
    requires RestKept(s, r, items) && !r.aborted && (Cached(r, it) <==> Cached(s, it))
    ensures RestKept(s, Handle(r, it), items + [it])
  {
    var all, t := items + [it], Handle(r, it);
    assert all[|items|] == it && forall i :: 0 <= i < |items| ==> all[i] == items[i];
    forall p | !DownloadedTo(s, all, p) ensures SameAt(s.files, t.files, p) {
      assert DownloadedTo(s, items, p) ==> DownloadedTo(s, all, p);
    }
    forall k | !DownloadedFor(s, all, k) ensures SameAt(s.etags, t.etags, k) {
      assert DownloadedFor(s, items, k) ==> DownloadedFor(s, all, k);
    }
  }

  /** A pass over the items has come to `r`, having dealt with `k` of them. */
  ghost predicate Effective(s: Pass, r: Pass, items: seq<Item>, k: nat)
    requires k <= |items|
  {
    && (r.aborted <==> k < |items|)
    && (if r.aborted then Delivered(s, r, items[..k]) && RestKept(s, r, items[..k]) else PassEffect(s, r, items))
  }

  lemma StopIsEffective(s: Pass, r: Pass, items: seq<Item>, it: Item, place: map<Key, Path>)
    requires PassEffect(s, r, items) && !r.aborted && Apart(place) && Placed(items + [it], place) && DistinctKeys(items + [it])
    requires Stops(s, it)
    ensures Effective(s, Handle(r, it), items + [it], |items|)
  {
    JudgedAlike(s, r, items, it, place);
    assert (items + [it])[..|items|] == items;
  }

  /** A pass downloads exactly the items that are not cached when it starts, up to the first that stops it. */
  lemma {:induction false} PullEffect(s: Pass, items: seq<Item>, place: map<Key, Path>)
    requires !s.aborted && Apart(place) && Placed(items, place) && DistinctKeys(items)
    ensures Effective(s, PullItems(s, items), items, Reach(s, items))
  {
    if items == [] {
      assert Locals(items) == {};
    } else {
      var front, it := items[..|items| - 1], items[|items| - 1];
      PullEffect(s, front, place);
      assert items == front + [it];
      var r, k := PullItems(s, front), Reach(s, front);
      if r.aborted {
        assert items[..k] == front[..k];
      } else if Stops(s, it) {
        StopIsEffective(s, r, front, it, place);
      } else {
        HandleExtends(s, r, front, it, place);
      }
    }
  }

  /** The effect of a pass, whether or not something stops it. */
  ghost predicate Summary(s: Pass, r: Pass, items: seq<Item>, k: nat)
    requires k <= |items|
  {
    && Delivered(s, r, items[..k]) && RestKept(s, r, items[..k])
    && (r.aborted <==> k < |items|) && (!r.aborted ==> PassEffect(s, r, items) && r.locals == Locals(items))
  }

  lemma PullSummary(s: Pass, items: seq<Item>, place: map<Key, Path>)
    requires !s.aborted && s.locals == {} && Apart(place) && Placed(items, place) && DistinctKeys(items)
    ensures Summary(s, PullItems(s, items), items, Reach(s, items))
  {
    PullEffect(s, items, place);
    assert items[..|items|] == items;
  }

  /******* Against the old cache, and against the bucket *******/

  lemma OwnDownload(s: Pass, items: seq<Item>, place: map<Key, Path>, i: nat)
    requires i < |items| && Apart(place) && Placed(items, place) && DistinctKeys(items)
    ensures DownloadedTo(s, items, items[i].path) <==> Downloads(s, items[i])
    ensures DownloadedFor(s, items, items[i].key) <==> Downloads(s, items[i])
  {
    assert forall j :: 0 <= j < |items| && j != i ==> items[j].key != items[i].key;
  }

  /** A download that the old cache is not wrong about: it has no ETag for the key, or one for the same
      content, or the file is removed again. */
  ghost predicate Harmless(it: Item, saved: map<Key, ETag>, swept: set<Path>, digest: ETag -> Content)
    requires it.fetch.Delivers?
  {
    it.key !in saved || digest(saved[it.key]) == it.fetch.content || it.path in swept
  }

  ghost predicate AllHarmless(s: Pass, items: seq<Item>, saved: map<Key, ETag>, swept: set<Path>, digest: ETag -> Content) {
    forall i :: 0 <= i < |items| && Downloads(s, items[i]) ==> Harmless(items[i], saved, swept, digest)
  }

  /** Beside the new files, the old cache is sound exactly when each download is harmless. */
  lemma OldCacheSoundExactly(s: Pass, r: Pass, items: seq<Item>, swept: set<Path>, saved: map<Key, ETag>,
                             place: map<Key, Path>, digest: ETag -> Content)
    requires Apart(place) && Placed(items, place) && DistinctKeys(items)
    requires Delivered(s, r, items) && RestKept(s, r, items) && Sound(s.files, saved, place, digest)
    ensures Sound(r.files - swept, saved, place, digest) <==> AllHarmless(s, items, saved, swept, digest)
  {
    if AllHarmless(s, items, saved, swept, digest) {
      forall k <- saved | place[k] in r.files - swept ensures r.files[place[k]] == digest(saved[k]) {
        if DownloadedTo(s, items, place[k]) {
          var i :| 0 <= i < |items| && Downloads(s, items[i]) && items[i].path == place[k];
          assert items[i].key == k;
        } else {
          assert SameAt(s.files, r.files, place[k]);
        }
      }
    }
  }

  /** Every item can be downloaded, no directory is in its way, and what is at its path is found. */
  ghost predicate Available(items: seq<Item>) {
    forall i :: 0 <= i < |items| ==> items[i].fetch.Delivers? && !items[i].blocked && !items[i].hidden
  }

  /** After a pass in which nothing fails every item is in the cache and on disk with the content of its ETag. */
  lemma AllArrive(s: Pass, r: Pass, items: seq<Item>, place: map<Key, Path>, digest: ETag -> Content)
    requires Apart(place) && Placed(items, place) && DistinctKeys(items) && Honest(items, digest) && Available(items)
    requires PassEffect(s, r, items) && Sound(s.files, s.etags, place, digest)
    ensures forall i :: 0 <= i < |items| ==>
      && items[i].path in r.files && r.files[items[i].path] == digest(items[i].etag)
      && items[i].key in r.etags && r.etags[items[i].key] == items[i].etag
  {
    forall i | 0 <= i < |items|
      ensures items[i].path in r.files && r.files[items[i].path] == digest(items[i].etag)
      ensures items[i].key in r.etags && r.etags[items[i].key] == items[i].etag
    {
      OwnDownload(s, items, place, i);
      assert !Downloads(s, items[i]) ==> SameAt(s.files, r.files, items[i].path) && SameAt(s.etags, r.etags, items[i].key);
    }
  }

  lemma {:induction false} AllCachedPass(s: Pass, items: seq<Item>)
    requires !s.aborted && forall i :: 0 <= i < |items| ==> Cached(s, items[i])
    ensures PullItems(s, items) == s.(locals := s.locals + Locals(items), skipped := s.skipped + |items|)
  {
    if items == [] {
      assert Locals(items) == {};
    } else {
      var front, it := items[..|items| - 1], items[|items| - 1];
      AllCachedPass(s, front);
      LocalsExtend(front, it);
      assert front + [it] == items;
    }
  }

  /** A pass that counts no download has changed no file. */
  lemma {:induction false} NoDownloadNoChange(s: Pass, items: seq<Item>)
    ensures PullItems(s, items).synced >= s.synced
    ensures PullItems(s, items).synced == s.synced ==> PullItems(s, items).files == s.files
  {
    if items != [] { NoDownloadNoChange(s, items[..|items| - 1]); }
  }

  /** A pass in which nothing fails counts the download of an item whose file is missing. */
  lemma MissingIsDownloaded(s: Pass, items: seq<Item>, place: map<Key, Path>, i: nat)
    requires !s.aborted && Apart(place) && Placed(items, place) && DistinctKeys(items) && Available(items)
    requires i < |items| && items[i].path !in s.files
    ensures PullItems(s, items).synced > s.synced
  {
    PullEffect(s, items, place);
    assert Reach(s, items) == |items|;
    assert Downloads(s, items[i]);
    NoDownloadNoChange(s, items);
  }
}
