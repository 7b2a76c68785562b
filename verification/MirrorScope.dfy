/** Which objects a sync is about, where it puts them and what it cleans, spelled out on the texts of the keys. */
module MirrorScope {
  import opened Common
  import opened Text
  import opened Paths
  import opened Mirror
  import opened MirrorPass
  import opened MirrorTheorems
  import opened MirrorExactness

  /******* Texts *******/

  /** `part in text`. */
  ghost predicate Within(text: string, part: string) {
    exists a, b :: text == a + part + b
  }

  lemma ContainsExactly(text: string, part: string)
    ensures Contains(text, part) <==> Within(text, part)
  {
    if Contains(text, part) {
      var i: nat :| i <= |text| && MatchesAt(text, part, i);
      assert text == text[..i] + part + text[i + |part|..];
    }
    if Within(text, part) {
      var a, b :| text == a + part + b;
      assert MatchesAt(text, part, |a|);
    }
  }

  /** A file lies below a `tools` directory of the data directory. */
  lemma BelowToolsExactly(p: Path)
    ensures BelowTools(p) <==> exists above, below :: below != [] && p == DATA_ROOT + above + ["tools"] + below
  {
    if BelowTools(p) {
      var i: nat :| |DATA_ROOT| <= i < |p| - 1 && p[i] == "tools";
      assert p == DATA_ROOT + p[|DATA_ROOT|..i] + ["tools"] + p[i + 1..];
    }
    if above, below :| below != [] && p == DATA_ROOT + above + ["tools"] + below {
      assert p[|DATA_ROOT| + |above|] == "tools";
      assert p[..|DATA_ROOT|] == DATA_ROOT;
    }
  }

  /******* Scope *******/

  /** `sync_all(username, project)` is about the key. */
  ghost predicate InScope(key: Key, username: string, project: string) {
    && (key == "" || key[|key| - 1] != '/')
    && Within(key, "/tools/")
    && (username == "" || Within(key, username))
    && (project == "" || Within(key, project))
  }

  lemma WantedIsInScope(key: Key, username: string, project: string)
    ensures Wanted(All(username, project), key) <==> InScope(key, username, project)
  {
    ContainsExactly(key, "/tools/");
    ContainsExactly(key, username);
    ContainsExactly(key, project);
    assert EndsWith(key, "/") <==> key != "" && key[|key| - 1] == '/' by {
      assert key != "" ==> key[|key| - 1..] == [key[|key| - 1]];
    }
  }

  /** One object below `users/`, as the pass sees it if it is in scope. */
  function ItemFor(o: Object): Item {
    Item(o.key, LocalKey(o.key), PlaceOf(o.key), o.etag, o.blocked, o.hidden, o.fetch)
  }

  /** A listing of one object gives one item or none ... */
  lemma ItemsOfOne(o: Object, username: string, project: string)
    ensures Items(All(username, project), [o]) == if InScope(o.key, username, project) then [ItemFor(o)] else []
  {
    WantedIsInScope(o.key, username, project);
    assert [o][..0] == [] && Items(All(username, project), []) == [];
  }

  lemma ToolItemsOfOne(o: Object)
    requires StartsWith(o.key, "users/")
    ensures Items(Tool, [o]) == if o.key[|o.key| - 1] != '/' then [ItemFor(o)] else []
  {
    ItemIsPlaced(Tool, o);
    assert o.key[|o.key| - 1..] == [o.key[|o.key| - 1]];
    assert [o][..0] == [] && Items(Tool, []) == [];
  }

  /** ... and longer ones are put together in order: so the items are exactly the objects in scope, in the order and as
      often as they are listed. */
  lemma {:induction false} ItemsConcat(scope: Scope, a: seq<Object>, b: seq<Object>)
    ensures Items(scope, a + b) == Items(scope, a) + Items(scope, b)
  {
    if b == [] {
      assert a + b == a;
    } else {
      var front, o := b[..|b| - 1], b[|b| - 1];
      ItemsConcat(scope, a, front);
      assert (a + b)[..|a + b| - 1] == a + front && (a + b)[|a + b| - 1] == o;
      var last := if Wanted(scope, o.key) then [ItemOf(scope, o)] else [];
      assert Items(scope, a) + Items(scope, front) + last == Items(scope, a) + (Items(scope, front) + last);
    }
  }

  lemma {:induction false} ItemsAreInScope(objs: seq<Object>, username: string, project: string)
    ensures forall i :: 0 <= i < |Items(All(username, project), objs)| ==> InScope(Items(All(username, project), objs)[i].key, username, project)
  {
    if objs != [] {
      var front, o := objs[..|objs| - 1], objs[|objs| - 1];
      ItemsAreInScope(front, username, project);
      ItemsConcat(All(username, project), front, [o]);
      assert front + [o] == objs;
      ItemsOfOne(o, username, project);
      var items, before := Items(All(username, project), objs), Items(All(username, project), front);
      forall i | 0 <= i < |items| ensures InScope(items[i].key, username, project) {
        if i < |before| { assert items[i] == before[i]; } else { assert items[i] == ItemFor(o); }
      }
    }
  }

  /** What a pass does with one item: skip it if its ETag is the cached one and something is found at its path, be it a
      directory; otherwise stop, fail or download, as it happens. */
  lemma OneItemExactly(s: Pass, it: Item)
    requires !s.aborted
    ensures var r := PullItems(s, [it]);
      && r.locals == s.locals + {it.local}
      && (if it.key in s.etags && s.etags[it.key] == it.etag && (it.blocked || (it.path in s.files && !it.hidden)) then
            r == s.(locals := r.locals, skipped := s.skipped + 1)
          else match it.fetch
            case MkdirRaises => r == s.(locals := r.locals, aborted := true)
            case DownloadFails => r == s.(locals := r.locals, failed := s.failed + 1)
            case Delivers(c) =>
              r == s.(locals := r.locals, synced := s.synced + 1, files := s.files[it.path := c], etags := s.etags[it.key := it.etag]))
  {
    assert [it][..0] == [];
  }

  /** A pass over more items is one pass after the other, and one that was stopped does nothing more. */
  lemma {:induction false} PullConcat(s: Pass, a: seq<Item>, b: seq<Item>)
    ensures PullItems(s, a + b) == PullItems(PullItems(s, a), b)
    ensures s.aborted ==> PullItems(s, b) == s
  {
    if b == [] {
      assert a + b == a;
    } else {
      PullConcat(s, a, b[..|b| - 1]);
      assert (a + b)[..|a + b| - 1] == a + b[..|b| - 1] && (a + b)[|a + b| - 1] == b[|b| - 1];
    }
  }

  /******* What a call leaves alone *******/

  /** The file is as before, or was brought in by one of the items. */
  ghost predicate OldOrFetched(before: map<Path, Content>, after: map<Path, Content>, items: seq<Item>, p: Path) {
    p in after ==>
      || (p in before && after[p] == before[p])
      || exists i :: 0 <= i < |items| && items[i].path == p && items[i].fetch == Delivers(after[p])
  }

  lemma {:induction false} PullWritesItems(s: Pass, items: seq<Item>, p: Path)
    ensures OldOrFetched(s.files, PullItems(s, items).files, items, p)
  {
    if items != [] {
      var front := items[..|items| - 1];
      PullWritesItems(s, front, p);
      var r := PullItems(s, front);
      assert forall i :: 0 <= i < |front| ==> items[i] == front[i];
      if p in r.files && !(p in s.files && r.files[p] == s.files[p]) {
        var i :| 0 <= i < |front| && front[i].path == p && front[i].fetch == Delivers(r.files[p]);
        assert items[i].path == p;
      }
    }
  }

  /** With a user or a project given, whatever is new on disk came from an object whose key contains them, and such
      objects are all that is counted. */
  lemma OthersAreLeftAlone(d: Disk, c: Call, p: Path)
    requires c.AllCall?
    ensures OldOrFetched(d.files, Effect(d, c).disk.files, ItemsOf(c), p)
    ensures forall i :: 0 <= i < |ItemsOf(c)| ==>
      (c.username == "" || Within(ItemsOf(c)[i].key, c.username)) && (c.project == "" || Within(ItemsOf(c)[i].key, c.project))
    ensures var e := Effect(d, c).report; e.Synced? ==> e.synced + e.skipped + PassOf(d, c).failed == |ItemsOf(c)|
  {
    ItemsAreInScope(Seen(c), c.username, c.project);
    EffectIsPass(d, c);
    PullWritesItems(Start(d, c), ItemsOf(c), p);
    if Effect(d, c).report.Synced? { EveryObjectIsCounted(d, c); }
  }

  /******* One tool *******/

  /** The directory of a tool, from the data directory down. */
  function ToolParts(username: string, project: string, category: string, tool: string): seq<string> {
    [username, project, "tools"] + (if category == "" then [] else [category]) + [tool]
  }

  lemma {:induction false} JoinBefore(parts: seq<string>, rest: string)
    requires parts != [] && AllFree(parts, '/')
    ensures Split(Join(parts, '/') + "/" + rest, '/') == parts + Split(rest, '/')
  {
    if |parts| == 1 {
      SplitOnce(parts[0], rest);
    } else {
      var inner := Join(parts[1..], '/');
      calc {
        Split(Join(parts, '/') + "/" + rest, '/');
        { Regroup(parts[0], inner, rest); }
        Split(parts[0] + ['/'] + (inner + "/" + rest), '/');
        { SplitOnce(parts[0], inner + "/" + rest); }
        [parts[0]] + Split(inner + "/" + rest, '/');
        { JoinBefore(parts[1..], rest); }
        [parts[0]] + (parts[1..] + Split(rest, '/'));
        { assert parts == [parts[0]] + parts[1..]; }
        parts + Split(rest, '/');
      }
    }
  }

  lemma Regroup(a: string, b: string, c: string)
    ensures a + ['/'] + b + "/" + c == a + ['/'] + (b + "/" + c)
  {}

  lemma {:induction false} JoinConcat(a: seq<string>, b: seq<string>)
    requires a != [] && b != []
    ensures Join(a + b, '/') == Join(a, '/') + "/" + Join(b, '/')
  {
    if |a| == 1 {
      assert (a + b)[1..] == b;
    } else {
      assert (a + b)[1..] == a[1..] + b;
      JoinConcat(a[1..], b);
      assert a[0] + ['/'] + (Join(a[1..], '/') + "/" + Join(b, '/')) == a[0] + ['/'] + Join(a[1..], '/') + "/" + Join(b, '/');
    }
  }

  /** The prefix that `sync_tool` lists. */
  lemma ToolPrefixExactly(uid: string, username: string, project: string, category: string, tool: string)
    ensures ToolPrefix(uid, username, project, category, tool) ==
            Join(["users", uid] + ToolParts(username, project, category, tool), '/') + "/"
  {
    var last := if category == "" then [tool] else [category, tool];
    assert ToolParts(username, project, category, tool) == [username, project, "tools"] + last;
    JoinConcat(["users", uid], [username, project, "tools"] + last);
    JoinConcat([username, project, "tools"], last);
    TextOfTwo("users", uid);
    TextOfThree(username, project, "tools");
    LastText(category, tool);
    FlatPrefix(uid, username, project, Join(last, '/'));
  }

  lemma LastText(category: string, tool: string)
    ensures Join(if category == "" then [tool] else [category, tool], '/') == (if category == "" then "" else category + "/") + tool
  {
    if category == "" { assert "" + tool == tool; } else { TextOfTwo(category, tool); }
  }

  lemma FlatPrefix(uid: string, username: string, project: string, last: string)
    ensures ("users" + "/" + uid) + "/" + ((username + "/" + project + "/" + "tools") + "/" + last) ==
            "users/" + uid + "/" + username + "/" + project + "/tools/" + last
  {
    var a, b := "users/" + uid + "/", username + "/" + project + "/tools/";
    assert ("users" + "/" + uid) + "/" == a && (username + "/" + project + "/" + "tools") + "/" + last == b + last;
    assert a + (b + last) == a + b + last;
    assert a + b == "users/" + uid + "/" + username + "/" + project + "/tools/";
  }

  lemma TextOfTwo(a: string, b: string)
    ensures Join([a, b], '/') == a + "/" + b
  {
    assert [a, b][1..] == [b];
  }

  lemma TextOfThree(a: string, b: string, c: string)
    ensures Join([a, b, c], '/') == a + "/" + b + "/" + c
  {
    assert [a, b, c][1..] == [b, c];
    TextOfTwo(b, c);
  }

  /** Every plain object it lists belongs in the directory of the tool, and below it. */
  lemma ToolObjectsStayInTool(uid: string, username: string, project: string, category: string, tool: string, key: Key)
    requires FileName(uid) && FileName(username) && FileName(project) && (category == "" || FileName(category)) && FileName(tool)
    requires StartsWith(key, ToolPrefix(uid, username, project, category, tool)) && Plain(LocalKey(key))
    ensures StrictlyBelow(PlaceOf(key), DATA_ROOT + ToolParts(username, project, category, tool))
  {
    var parts := ToolParts(username, project, category, tool);
    var all := ["users", uid] + parts;
    ToolPrefixExactly(uid, username, project, category, tool);
    var rest := key[|Join(all, '/')| + 1..];
    assert key == Join(all, '/') + "/" + rest;
    JoinBefore(all, rest);
    assert Split(key, '/')[2..] == parts + Split(rest, '/');
    PlaceOfParts(key, parts + Split(rest, '/'));
    assert DATA_ROOT + (parts + Split(rest, '/')) == DATA_ROOT + parts + Split(rest, '/');
  }

  lemma PlaceOfParts(key: Key, names: seq<string>)
    requires |Split(key, '/')| >= 3 && Split(key, '/')[0] == "users" && Split(key, '/')[2..] == names && Plain(LocalKey(key))
    ensures PlaceOf(key) == DATA_ROOT + names
  {
    SplitIsFree(key, '/');
    SplitJoin(names, '/');
    NotAbsolute(LocalKey(key));
    WalkNames(DATA_ROOT, names);
  }

  /******* Cleaning *******/

  lemma PlaceBelow(base: Path, name: string)
    requires FileName(name)
    ensures Below(base, name) == base + [name]
  {
    SplitFree(name, '/');
    assert name[0] in name;
    WalkNames(base, [name]);
  }

  /** `clean_first` removes the directory of the user, or of the user's project. */
  lemma TargetExactly(username: string, project: string)
    requires FileName(username) && (project == "" || FileName(project))
    ensures Target(username, project) == DATA_ROOT + [username] + (if project == "" then [] else [project])
  {
    PlaceBelow(DATA_ROOT, username);
    if project != "" { PlaceBelow(DATA_ROOT + [username], project); }
  }

  /** After a cleaning call, what lies in that directory was brought in by the call; what lies elsewhere, neither below
      `tools` nor at the place of an object in scope, is as before. */
  lemma CleanFirstExactly(d: Disk, c: Call, p: Path)
    requires c.AllCall? && c.cleanFirst && FileName(c.username) && (c.project == "" || FileName(c.project))
    requires Seen(c) != [] && c.faults.undeletable == {}
    ensures var dir, files := DATA_ROOT + [c.username] + (if c.project == "" then [] else [c.project]), Effect(d, c).disk.files;
      && (p in files && dir < p ==> exists i :: 0 <= i < |ItemsOf(c)| && ItemsOf(c)[i].path == p && ItemsOf(c)[i].fetch == Delivers(files[p]))
      && (p in d.files && !(dir < p) && !BelowTools(p) && (forall i :: 0 <= i < |ItemsOf(c)| ==> ItemsOf(c)[i].path != p) ==>
           p in files && files[p] == d.files[p])
  {
    TargetExactly(c.username, c.project);
    SweptFiles(d, c, p);
    CleanedStart(d, c, p);
    PullWritesItems(Start(d, c), ItemsOf(c), p);
    PullKeepsOthers(Start(d, c), ItemsOf(c), p);
  }

  /** The pass starts without what was cleaned away. */
  lemma CleanedStart(d: Disk, c: Call, p: Path)
    requires c.AllCall? && c.cleanFirst && c.username != "" && Seen(c) != [] && c.faults.undeletable == {}
    ensures var files := Start(d, c).files;
      if p in d.files && !(Target(c.username, c.project) < p) then p in files && files[p] == d.files[p] else p !in files
  {}

  /** The orphan pass takes only files below `tools`. */
  lemma SweptFiles(d: Disk, c: Call, p: Path)
    requires c.AllCall? && Seen(c) != []
    ensures var before, after := PassOf(d, c).files, Effect(d, c).disk.files;
      && (p in after ==> p in before && after[p] == before[p])
      && (p in before && !BelowTools(p) ==> p in after)
  {
    AllIsPass(d, c);
  }

  lemma {:induction false} PullKeepsOthers(s: Pass, items: seq<Item>, p: Path)
    ensures (forall i :: 0 <= i < |items| ==> items[i].path != p) ==> SameAt(s.files, PullItems(s, items).files, p)
  {
    if items != [] { PullKeepsOthers(s, items[..|items| - 1], p); }
  }
}
