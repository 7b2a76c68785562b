/**
 The ETag-aware mirror of a bucket in the local data tree: `sync_all` and `sync_tool` of the S3 syncer,
 with every download, directory, unlink, load and save that can go wrong.
 */
module Mirror {
  import opened Common
  import opened Paths

  /** The content of a file, by identity. */
  type Content = nat
  type Key = string
  type ETag = string

  /** What happens to an object that is not skipped: the content arrives, the download fails, or creating
      the parent directory raises and ends the whole call. */
  datatype Fetch = Delivers(content: Content) | DownloadFails | MkdirRaises

  /** One listed object. `blocked` says that a directory stands at its local path, `hidden` that its key goes through a
      directory that does not exist and back out by `..`, so that nothing is found at its path. */
  datatype Object = Object(key: Key, etag: ETag, blocked: bool, hidden: bool, fetch: Fetch)

  /** The local files, and the ETag cache as last saved. */
  datatype Disk = Disk(files: map<Path, Content>, saved: map<Key, ETag>)

  /** Which objects a call looks at, and how it names them locally. */
  datatype Scope = All(username: string, project: string) | Tool

  predicate Wanted(scope: Scope, key: Key) {
    && !EndsWith(key, "/")
    && (scope.All? ==>
          && (scope.username == "" || Contains(key, scope.username))
          && (scope.project == "" || Contains(key, scope.project))
          && Contains(key, "/tools/"))
  }

  function Local(scope: Scope, key: Key): string {
    if scope.All? then LocalKey(key) else ToolLocalKey(key)
  }

  /** What a bucket lists under a prefix. */
  function Listed(bucket: seq<Object>, prefix: string): (objs: seq<Object>)
    ensures forall i :: 0 <= i < |objs| ==> StartsWith(objs[i].key, prefix) && objs[i] in bucket
    ensures forall i :: 0 <= i < |bucket| && StartsWith(bucket[i].key, prefix) ==> bucket[i] in objs
    ensures forall o :: multiset(objs)[o] == if StartsWith(o.key, prefix) then multiset(bucket)[o] else 0
  {
    assert bucket != [] ==> bucket == [bucket[0]] + bucket[1..];
    if bucket == [] then []
    else
      var rest := Listed(bucket[1..], prefix);
      if StartsWith(bucket[0].key, prefix) then [bucket[0]] + rest else rest
  }

  /** A listing keeps the order of the bucket. */
  lemma {:induction false} ListedConcat(a: seq<Object>, b: seq<Object>, prefix: string)
    ensures Listed(a + b, prefix) == Listed(a, prefix) + Listed(b, prefix)
  {
    if a == [] {
      assert a + b == b;
    } else {
      assert (a + b)[0] == a[0] && (a + b)[1..] == a[1..] + b;
      ListedConcat(a[1..], b, prefix);
    }
  }

  /******* The pass over the listing *******/

  /** The state of the pass. `failed` counts the downloads that were only logged. */
  datatype Pass = Pass(
    files: map<Path, Content>, etags: map<Key, ETag>, locals: set<string>,
    synced: nat, skipped: nat, failed: nat, aborted: bool)

  /** An object in scope, with its local key and path. */
  datatype Item = Item(key: Key, local: string, path: Path, etag: ETag, blocked: bool, hidden: bool, fetch: Fetch)

  function ItemOf(scope: Scope, o: Object): Item {
    var local := Local(scope, o.key);
    Item(o.key, local, Place(local), o.etag, o.blocked, o.hidden, o.fetch)
  }

  /** The item is skipped: its ETag is the cached one and something exists at its path. */
  predicate Cached(s: Pass, it: Item) {
    it.key in s.etags && s.etags[it.key] == it.etag && ((it.path in s.files && !it.hidden) || it.blocked)
  }

  function Handle(s: Pass, it: Item): Pass {
    if s.aborted then s
    else
      var t := s.(locals := s.locals + {it.local});
      if Cached(s, it) then t.(skipped := s.skipped + 1)
      else match it.fetch
        case MkdirRaises => t.(aborted := true)
        case DownloadFails => t.(failed := s.failed + 1)
        case Delivers(c) => t.(files := s.files[it.path := c], etags := s.etags[it.key := it.etag], synced := s.synced + 1)
  }

  function Visit(s: Pass, scope: Scope, o: Object): Pass {
    if Wanted(scope, o.key) then Handle(s, ItemOf(scope, o)) else s
  }

  function Pull(s: Pass, scope: Scope, objs: seq<Object>): Pass {
    if objs == [] then s else Visit(Pull(s, scope, objs[..|objs| - 1]), scope, objs[|objs| - 1])
  }

  /** The pass starts from the files and the cache, or from an empty cache when that cannot be read. */
  function Opening(d: Disk, loads: bool): Pass {
    Pass(d.files, if loads then d.saved else map[], {}, 0, 0, 0, false)
  }

  /******* Whole calls *******/

  /** What can go wrong around the pass: files that cannot be removed, the listing of `sync_all`, and reading and
      writing the cache file. */
  datatype Faults = Faults(undeletable: set<Path>, lists: bool, loads: bool, saves: bool)

  datatype Report = NothingListed | Raised | Synced(synced: nat, skipped: nat, deleted: nat)

  datatype Outcome = Outcome(disk: Disk, report: Report)

  const CACHE_FILE := DATA_ROOT + [".s3_etag_cache.json"]

  /** The directory that `clean_first` removes. */
  function Target(username: string, project: string): Path
    requires username != ""
  {
    if project == "" then Place(username) else Below(Place(username), project)
  }

  /** `rmtree` with errors ignored; the saved cache is lost with the file that holds it. */
  function Cleaned(d: Disk, target: Path, f: Faults): Disk {
    Disk(map p | p in d.files && (!StrictlyBelow(p, target) || p in f.undeletable) :: d.files[p],
         if StrictlyBelow(CACHE_FILE, target) && CACHE_FILE !in f.undeletable then map[] else d.saved)
  }

  function Prepared(d: Disk, scope: Scope, cleanFirst: bool, f: Faults): Disk
    requires scope.All?
  {
    if cleanFirst && scope.username != "" then Cleaned(d, Target(scope.username, scope.project), f) else d
  }

  /** Files below a `tools` directory whose path is not the local key of any object the pass looked at. */
  function Orphans(files: map<Path, Content>, locals: set<string>): set<Path> {
    set p | p in files && BelowTools(p) && Posix(p) !in locals
  }

  function SyncedAll(d: Disk, bucket: seq<Object>, scope: Scope, cleanFirst: bool, f: Faults): Outcome
    requires scope.All?
  {
    var listing := Listed(bucket, "users/");
    if !f.lists then Outcome(d, Raised)
    else if listing == [] then Outcome(d, NothingListed)
    else
      var start := Prepared(d, scope, cleanFirst, f);
      var r := Pull(Opening(start, f.loads), scope, listing);
      if r.aborted then Outcome(Disk(r.files, start.saved), Raised)
      else
        var gone := Orphans(r.files, r.locals) - f.undeletable;
        Outcome(Disk(r.files - gone, if f.saves then r.etags else start.saved), Synced(r.synced, r.skipped, |gone|))
  }

  /** The prefix of one tool. */
  function ToolPrefix(uid: string, username: string, project: string, category: string, tool: string): string {
    "users/" + uid + "/" + username + "/" + project + "/tools/" + (if category == "" then "" else category + "/") + tool + "/"
  }

  /** The objects that arrive before the listing itself raises, if it does. */
  function Arriving(bucket: seq<Object>, prefix: string, raisesAt: Option<nat>): seq<Object> {
    var objs := Listed(bucket, prefix);
    if raisesAt.Some? && raisesAt.value < |objs| then objs[..raisesAt.value] else objs
  }

  function SyncedTool(d: Disk, bucket: seq<Object>, prefix: string, raisesAt: Option<nat>, f: Faults): Outcome {
    var r := Pull(Opening(d, f.loads), Tool, Arriving(bucket, prefix, raisesAt));
    if r.aborted || raisesAt.Some? then Outcome(Disk(r.files, d.saved), Raised)
    else Outcome(Disk(r.files, if f.saves then r.etags else d.saved), Synced(r.synced, r.skipped, 0))
  }

  /******* The syncer *******/

  lemma PullSnoc(s: Pass, scope: Scope, objs: seq<Object>, i: nat)
    requires i < |objs|
    ensures Pull(s, scope, objs[..i + 1]) == Visit(Pull(s, scope, objs[..i]), scope, objs[i])
  {
    assert objs[..i + 1][..i] == objs[..i];
  }

  lemma {:induction false} AbortedStays(s: Pass, scope: Scope, objs: seq<Object>, i: nat)
    requires i <= |objs| && Pull(s, scope, objs[..i]).aborted
    ensures Pull(s, scope, objs) == Pull(s, scope, objs[..i])
    decreases |objs| - i
  {
    if i == |objs| {
      assert objs[..i] == objs;
    } else {
      PullSnoc(s, scope, objs, i);
      AbortedStays(s, scope, objs, i + 1);
    }
  }

  class Syncer {
    var files: map<Path, Content>
    var saved: map<Key, ETag>

    ghost function View(): Disk
      reads this
    {
      Disk(files, saved)
    }

    constructor ()
      ensures View() == Disk(map[], map[])
    {
      files, saved := map[], map[];
    }

    /** The loop over the listing, shared by both calls; `aborted` stands for the exception that leaves it. */
    method PullObjects(scope: Scope, objs: seq<Object>, loads: bool)
      returns (etags: map<Key, ETag>, locals: set<string>, synced: nat, skipped: nat, ghost failed: nat, aborted: bool)
      modifies this`files
      ensures Pass(files, etags, locals, synced, skipped, failed, aborted) == Pull(Opening(old(View()), loads), scope, objs)
    {
      etags, locals, synced, skipped, failed, aborted := if loads then saved else map[], {}, 0, 0, 0, false;
      ghost var opening := Opening(View(), loads);
      for i := 0 to |objs|
        invariant !aborted && Pass(files, etags, locals, synced, skipped, failed, aborted) == Pull(opening, scope, objs[..i])
      {
        PullSnoc(opening, scope, objs, i);
        var o := objs[i];
        if !Wanted(scope, o.key) { continue; }
        var local := Local(scope, o.key);
        locals := locals + {local};
        var path := Place(local);
        if o.key in etags && etags[o.key] == o.etag && ((path in files && !o.hidden) || o.blocked) {
          skipped := skipped + 1;
          continue;
        }
        match o.fetch {
          case MkdirRaises =>
            aborted := true;
            AbortedStays(opening, scope, objs, i + 1);
            return;
          case DownloadFails =>
            failed := failed + 1;
          case Delivers(c) =>
            files := files[path := c];
            etags := etags[o.key := o.etag];
            synced := synced + 1;
        }
      }
      assert objs[..|objs|] == objs;
    }

    /** The orphan pass, over the whole data tree. */
    method DeleteOrphans(locals: set<string>, undeletable: set<Path>) returns (deleted: nat)
      modifies this`files
      ensures var gone := Orphans(old(files), locals) - undeletable; files == old(files) - gone && deleted == |gone|
    {
      var rest := set p | p in files && BelowTools(p);
      ghost var gone: set<Path> := {};
      deleted := 0;
      while rest != {}
        invariant rest <= old(files).Keys && files == old(files) - gone && deleted == |gone|
        invariant rest !! gone && gone <= Orphans(old(files), locals) - undeletable
        invariant forall p <- Orphans(old(files), locals) - undeletable :: p in rest || p in gone
        invariant forall p <- rest :: BelowTools(p)
        decreases |rest|
      {
        var p :| p in rest;
        rest := rest - {p};
        if Posix(p) !in locals && p !in undeletable {
          files := files - {p};
          gone := gone + {p};
          deleted := deleted + 1;
        }
      }
      assert gone == Orphans(old(files), locals) - undeletable;
    }

    /** `sync_all`. */
    method SyncAll(bucket: seq<Object>, username: string, project: string, cleanFirst: bool, f: Faults) returns (report: Report)
      modifies this
      ensures Outcome(View(), report) == SyncedAll(old(View()), bucket, All(username, project), cleanFirst, f)
    {
      if !f.lists { return Raised; }
      var listing := Listed(bucket, "users/");
      if listing == [] { return NothingListed; }
      if cleanFirst && username != "" {
        var target := Target(username, project);
        files := map p | p in files && (!StrictlyBelow(p, target) || p in f.undeletable) :: files[p];
        if StrictlyBelow(CACHE_FILE, target) && CACHE_FILE !in f.undeletable { saved := map[]; }
      }
      var etags, locals, synced, skipped, failed, aborted := PullObjects(All(username, project), listing, f.loads);
      if aborted { return Raised; }
      var deleted := DeleteOrphans(locals, f.undeletable);
      if f.saves { saved := etags; }
      return Synced(synced, skipped, deleted);
    }

    /** `sync_tool`. */
    method SyncTool(bucket: seq<Object>, uid: string, username: string, project: string, category: string, tool: string,
                    raisesAt: Option<nat>, f: Faults) returns (report: Report)
      modifies this
      ensures Outcome(View(), report) == SyncedTool(old(View()), bucket, ToolPrefix(uid, username, project, category, tool), raisesAt, f)
    {
      var objs := Arriving(bucket, ToolPrefix(uid, username, project, category, tool), raisesAt);
      var etags, locals, synced, skipped, failed, aborted := PullObjects(Tool, objs, f.loads);
      if aborted || raisesAt.Some? { return Raised; }
      if f.saves { saved := etags; }
      return Synced(synced, skipped, 0);
    }
  }
}
