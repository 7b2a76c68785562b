/** Who may run what: resolution and authorization spelled out on the registered tools and the caller. */
module ToolAccess {
  import opened Common
  import opened Text
  import opened ToolRegistry

  /******* Resolution *******/

  /** What a tool found by its display name must be for this caller. */
  predicate Suits(tool: Tool, name: string, c: Caller) {
    && tool.name == name
    && (GaveBoth(c) ==>
          && tool.username == c.username && tool.project == c.project
          && (c.category.Some? && c.category.value != "" ==> tool.category == c.category))
  }

  /** The earliest registered tool that suits. */
  ghost predicate FirstSuited(t: Tables, name: string, c: Caller, r: Option<string>) {
    match r
    case None => forall k <- t.tools :: !Suits(t.tools[k], name, c)
    case Some(k) =>
      exists i :: 0 <= i < |t.order| && t.order[i] == k && k in t.tools && Suits(t.tools[k], name, c)
        && forall j :: 0 <= j < i ==> t.order[j] in t.tools && !Suits(t.tools[t.order[j]], name, c)
  }

  /** The three stages: the caller's own keys, the more special one first; the name itself as a key; the display name. */
  ghost predicate Resolves(t: Tables, name: string, c: Caller, r: Option<string>) {
    if GaveBoth(c) && c.category.Some? && c.category.value != ""
       && c.username.value + "/" + c.project.value + "/" + c.category.value + "/" + name in t.tools then
      r == Some(c.username.value + "/" + c.project.value + "/" + c.category.value + "/" + name)
    else if GaveBoth(c) && c.username.value + "/" + c.project.value + "/" + name in t.tools then
      r == Some(c.username.value + "/" + c.project.value + "/" + name)
    else if name in t.tools then r == Some(name)
    else FirstSuited(t, name, c, r)
  }

  lemma JoinThree(a: string, b: string, c: string)
    ensures Join([a, b, c], '/') == a + "/" + b + "/" + c
  {
    assert [a, b, c][1..] == [b, c] && [b, c][1..] == [c];
    assert Join([b, c], '/') == b + "/" + c;
  }

  lemma JoinFour(a: string, b: string, c: string, d: string)
    ensures Join([a, b, c, d], '/') == a + "/" + b + "/" + c + "/" + d
  {
    assert [a, b, c, d][1..] == [b, c, d];
    JoinThree(b, c, d);
  }

  lemma {:induction false} ScanFindsFirst(tools: map<string, Tool>, order: seq<string>, name: string, c: Caller)
    ensures var r := ScanAccepted(tools, order, name, c);
      match r
      case None => forall j :: 0 <= j < |order| && order[j] in tools ==> !Suits(tools[order[j]], name, c)
      case Some(k) =>
        exists i :: 0 <= i < |order| && order[i] == k && k in tools && Suits(tools[k], name, c)
          && forall j :: 0 <= j < i && order[j] in tools ==> !Suits(tools[order[j]], name, c)
  {
    if order != [] {
      assert forall j :: 1 <= j < |order| ==> order[1..][j - 1] == order[j];
      if !(order[0] in tools && Suits(tools[order[0]], name, c)) {
        ScanFindsFirst(tools, order[1..], name, c);
        var r := ScanAccepted(tools, order[1..], name, c);
        if r.Some? {
          var i :| 0 <= i < |order[1..]| && order[1..][i] == r.value && r.value in tools && Suits(tools[r.value], name, c)
            && forall j :: 0 <= j < i && order[1..][j] in tools ==> !Suits(tools[order[1..][j]], name, c);
          assert order[i + 1] == r.value;
        }
      }
    }
  }

  lemma TwoPresent(tools: map<string, Tool>, keys: seq<string>)
    requires 1 <= |keys| <= 2
    ensures FirstPresent(tools, keys) == if keys[0] in tools then Some(keys[0]) else if keys[|keys| - 1] in tools then Some(keys[|keys| - 1]) else None
  {
    if |keys| == 2 {
      assert keys[1..] == [keys[1]];
      assert [keys[1]][1..] == [];
    } else {
      assert keys[1..] == [];
    }
  }

  lemma NamespacedStages(t: Tables, name: string, c: Caller)
    ensures var r := FirstPresent(t.tools, Namespaced(name, c));
      if GaveBoth(c) && c.category.Some? && c.category.value != ""
         && c.username.value + "/" + c.project.value + "/" + c.category.value + "/" + name in t.tools then
        r == Some(c.username.value + "/" + c.project.value + "/" + c.category.value + "/" + name)
      else if GaveBoth(c) && c.username.value + "/" + c.project.value + "/" + name in t.tools then
        r == Some(c.username.value + "/" + c.project.value + "/" + name)
      else r == None
  {
    if GaveBoth(c) {
      JoinThree(c.username.value, c.project.value, name);
      if c.category.Some? && c.category.value != "" {
        JoinFour(c.username.value, c.project.value, c.category.value, name);
      }
      var keys := Namespaced(name, c);
      assert keys != [] && keys[|keys| - 1] == c.username.value + "/" + c.project.value + "/" + name;
      TwoPresent(t.tools, keys);
    }
  }

  /** On tables whose index agrees, for every name and every caller, resolution takes the three stages as spelled out. */
  lemma ResolveExactly(t: Tables, name: string, c: Caller)
    requires DictOk(t) && IndexAgrees(t)
    ensures Resolves(t, name, c, Resolve(t.tools, Indexed(t, name), name, c))
  {
    NamespacedStages(t, name, c);
    IndexResolvesLikeScan(t, name, c);
    ScanFindsFirst(t.tools, t.order, name, c);
    ScanSuits(t, name, c, ScanAccepted(t.tools, t.order, name, c));
  }

  lemma ScanSuits(t: Tables, name: string, c: Caller, r: Option<string>)
    requires DictOk(t)
    requires match r
      case None => forall j :: 0 <= j < |t.order| && t.order[j] in t.tools ==> !Suits(t.tools[t.order[j]], name, c)
      case Some(k) =>
        exists i :: 0 <= i < |t.order| && t.order[i] == k && k in t.tools && Suits(t.tools[k], name, c)
          && forall j :: 0 <= j < i && t.order[j] in t.tools ==> !Suits(t.tools[t.order[j]], name, c)
    ensures FirstSuited(t, name, c, r)
  {
    assert forall j :: 0 <= j < |t.order| ==> t.order[j] in t.order;
    if r.None? {
      forall k <- t.tools ensures !Suits(t.tools[k], name, c) {
        assert k in t.order;
        var j :| 0 <= j < |t.order| && t.order[j] == k;
      }
    }
  }

  /** After any registrations and clears that never rename a key, every call by every caller resolves and is answered as
      spelled out. */
  lemma CallsAreAnsweredExactly(ops: seq<Operation>, name: string, c: Caller)
    requires NeverRenames(ops)
    ensures var t := Replay(ops); var key := Resolve(t.tools, Indexed(t, name), name, c);
      Resolves(t, name, c, key) && (key.Some? ==> key.value in t.tools) && AnswersCall(t.tools, key, c, Authorize(t.tools, key, c))
  {
    var t := Replay(ops);
    IndexAgreesExactly(ops);
    ReplayTables(ops, (_: Tool) => true);
    ResolveExactly(t, name, c);
    ResolvedIsRegistered(t.tools, Indexed(t, name), name, c);
    AccessExactly(t.tools, Resolve(t.tools, Indexed(t, name), name, c), c);
  }
}
