/**
 The in-memory tool registry: `TOOLS`, the secondary index `NAME_INDEX`, and the resolution of a
 call to a tool the caller may run.
 */
module ToolRegistry {
  import opened Common
  import opened Text

  /** Metadata of one registered tool; `body` stands for its function, description and schema. */
  datatype Tool = Tool(name: string, username: Option<string>, project: Option<string>, category: Option<string>, body: nat)

  /** Python truth of an optional string. */
  predicate Given(o: Option<string>) {
    o.Some? && o.value != ""
  }

  /** The tool belongs to a user and a project. */
  predicate Owned(tool: Tool) {
    Given(tool.username) && Given(tool.project)
  }

  /** The parts of the registry key, joined with '/'. */
  function KeyParts(name: string, username: Option<string>, project: Option<string>, category: Option<string>): (p: seq<string>)
    ensures p != [] && p[|p| - 1] == name
  {
    if Given(username) && Given(project) && Given(category) then [username.value, project.value, category.value, name]
    else if Given(username) && Given(project) then [username.value, project.value, name]
    else [name]
  }

  function KeyOf(tool: Tool): string {
    Join(KeyParts(tool.name, tool.username, tool.project, tool.category), '/')
  }

  /** `TOOLS` (a dict, with its insertion order) and `NAME_INDEX`. */
  datatype Tables = Tables(tools: map<string, Tool>, order: seq<string>, index: map<string, seq<string>>)

  const EMPTY := Tables(map[], [], map[])

  function Indexed(t: Tables, name: string): seq<string> {
    if name in t.index then t.index[name] else []
  }

  /** `register_tool`: replacing a key keeps its place in the dict. */
  function Registered(t: Tables, tool: Tool): Tables {
    var key := KeyOf(tool);
    var keys := Indexed(t, tool.name);
    Tables(
      t.tools[key := tool],
      if key in t.tools then t.order else t.order + [key],
      t.index[tool.name := if key in keys then keys else keys + [key]])
  }

  /** The keys a full scan of `TOOLS` finds for a display name, in insertion order. */
  function Scan(tools: map<string, Tool>, order: seq<string>, name: string): seq<string> {
    if order == [] then []
    else if order[0] in tools && tools[order[0]].name == name then [order[0]] + Scan(tools, order[1..], name)
    else Scan(tools, order[1..], name)
  }

  /** The insertion order lists every key of the dict, once. */
  ghost predicate DictOk(t: Tables) {
    && (forall k :: k in t.order <==> k in t.tools)
    && (forall i, j :: 0 <= i < j < |t.order| ==> t.order[i] != t.order[j])
  }

  ghost predicate KeysOk(t: Tables) {
    forall k <- t.tools :: k == KeyOf(t.tools[k])
  }

  /** The index agrees with a full scan on every display name. */
  ghost predicate IndexAgrees(t: Tables) {
    forall name :: Indexed(t, name) == Scan(t.tools, t.order, name)
  }

  /******* The index *******/

  lemma {:induction false} ScanMembers(tools: map<string, Tool>, order: seq<string>, name: string)
    ensures forall k :: k in Scan(tools, order, name) <==> k in order && k in tools && tools[k].name == name
  {
    if order != [] {
      assert forall k :: k in order <==> k == order[0] || k in order[1..];
      ScanMembers(tools, order[1..], name);
    }
  }

  lemma {:induction false} ScanAppend(tools: map<string, Tool>, a: seq<string>, b: seq<string>, name: string)
    ensures Scan(tools, a + b, name) == Scan(tools, a, name) + Scan(tools, b, name)
  {
    if a == [] {
      assert a + b == b;
    } else {
      assert (a + b)[1..] == a[1..] + b;
      ScanAppend(tools, a[1..], b, name);
    }
  }

  /** A scan depends only on which of the listed keys carry the name. */
  lemma {:induction false} ScanCongruent(tools: map<string, Tool>, other: map<string, Tool>, order: seq<string>, name: string)
    requires forall k <- order :: (k in tools && tools[k].name == name) <==> (k in other && other[k].name == name)
    ensures Scan(tools, order, name) == Scan(other, order, name)
  {
    if order != [] {
      assert order[0] in order && forall k <- order[1..] :: k in order;
      ScanCongruent(tools, other, order[1..], name);
    }
  }

  lemma RegisterNewKey(t: Tables, tool: Tool)
    requires DictOk(t) && IndexAgrees(t) && KeyOf(tool) !in t.tools
    ensures IndexAgrees(Registered(t, tool))
  {
    var r, key := Registered(t, tool), KeyOf(tool);
    forall name ensures Indexed(r, name) == Scan(r.tools, r.order, name) {
      ScanMembers(t.tools, t.order, name);
      ScanAppend(r.tools, t.order, [key], name);
      ScanCongruent(t.tools, r.tools, t.order, name);
      assert Indexed(t, name) == Scan(t.tools, t.order, name);
      assert Scan(r.tools, [key], name) == if name == tool.name then [key] else [];
    }
  }

  lemma RegisterSameName(t: Tables, tool: Tool)
    requires DictOk(t) && IndexAgrees(t) && KeyOf(tool) in t.tools && t.tools[KeyOf(tool)].name == tool.name
    ensures IndexAgrees(Registered(t, tool))
  {
    var r, key := Registered(t, tool), KeyOf(tool);
    forall name ensures Indexed(r, name) == Scan(r.tools, r.order, name) {
      ScanMembers(t.tools, t.order, name);
      ScanCongruent(t.tools, r.tools, t.order, name);
      assert Indexed(t, name) == Scan(t.tools, t.order, name);
    }
  }

  /** Registering over a key that carries another display name leaves that name indexed to a tool that no
      longer has it. */
  lemma RegisterOtherName(t: Tables, tool: Tool)
    requires DictOk(t) && IndexAgrees(t) && KeyOf(tool) in t.tools && t.tools[KeyOf(tool)].name != tool.name
    ensures var name := t.tools[KeyOf(tool)].name; Indexed(Registered(t, tool), name) != Scan(Registered(t, tool).tools, Registered(t, tool).order, name)
  {
    var r, key, name := Registered(t, tool), KeyOf(tool), t.tools[KeyOf(tool)].name;
    ScanMembers(t.tools, t.order, name);
    ScanMembers(r.tools, r.order, name);
    assert Indexed(t, name) == Scan(t.tools, t.order, name);
    assert key in Indexed(r, name) && key !in Scan(r.tools, r.order, name);
  }

  /** One registration keeps the index in agreement exactly when it does not rename an existing key. */
  lemma RegisterKeepsIndex(t: Tables, tool: Tool)
    requires DictOk(t) && IndexAgrees(t)
    ensures DictOk(Registered(t, tool))
    ensures IndexAgrees(Registered(t, tool)) <==> (KeyOf(tool) in t.tools ==> t.tools[KeyOf(tool)].name == tool.name)
  {
    if KeyOf(tool) !in t.tools { RegisterNewKey(t, tool); }
    else if t.tools[KeyOf(tool)].name == tool.name { RegisterSameName(t, tool); }
    else { RegisterOtherName(t, tool); }
  }

  /** A '/'-free display name is the last part of its key, so equal keys carry equal names. */
  lemma KeyDeterminesName(a: Tool, b: Tool)
    requires Free(a.name, '/') && Free(b.name, '/') && KeyOf(a) == KeyOf(b)
    ensures a.name == b.name
  {
    LastOfJoin(KeyParts(a.name, a.username, a.project, a.category), '/');
    LastOfJoin(KeyParts(b.name, b.username, b.project, b.category), '/');
  }

  /******* Histories *******/

  datatype Operation = Register(tool: Tool) | Clear

  function Replay(ops: seq<Operation>): Tables {
    if ops == [] then EMPTY else
    var before := Replay(ops[..|ops| - 1]);
    match ops[|ops| - 1]
    case Register(tool) => Registered(before, tool)
    case Clear => EMPTY
  }

  ghost predicate AllTools(ops: seq<Operation>, p: Tool -> bool) {
    forall op <- ops :: op.Register? ==> p(op.tool)
  }

  lemma {:induction false} ReplayTables(ops: seq<Operation>, p: Tool -> bool)
    requires AllTools(ops, p)
    ensures var t := Replay(ops); DictOk(t) && KeysOk(t) && forall k <- t.tools :: p(t.tools[k])
  {
    if ops != [] { ReplayTables(ops[..|ops| - 1], p); }
  }

  predicate PlainName(tool: Tool) {
    Free(tool.name, '/')
  }

  /** With '/'-free display names the index agrees with a full scan after any registrations,
      re-registrations and clears. */
  lemma {:induction false} IndexAgreesAlways(ops: seq<Operation>)
    requires AllTools(ops, PlainName)
    ensures IndexAgrees(Replay(ops))
  {
    if ops != [] && ops[|ops| - 1].Register? {
      var before, tool := Replay(ops[..|ops| - 1]), ops[|ops| - 1].tool;
      IndexAgreesAlways(ops[..|ops| - 1]);
      ReplayTables(ops[..|ops| - 1], PlainName);
      assert PlainName(tool);
      if KeyOf(tool) in before.tools { KeyDeterminesName(tool, before.tools[KeyOf(tool)]); }
      RegisterKeepsIndex(before, tool);
    }
  }

  /** The index agrees in every state of the history. */
  ghost predicate AlwaysAgrees(ops: seq<Operation>) {
    IndexAgrees(Replay(ops)) && (ops != [] ==> AlwaysAgrees(ops[..|ops| - 1]))
  }

  /** No registration puts another display name under a key that is in use. */
  ghost predicate NeverRenames(ops: seq<Operation>) {
    ops != [] ==>
      var before, op := ops[..|ops| - 1], ops[|ops| - 1];
      var tools := Replay(before).tools;
      NeverRenames(before) && (op.Register? && KeyOf(op.tool) in tools ==> tools[KeyOf(op.tool)].name == op.tool.name)
  }

  /** With any names at all, the index agrees throughout a history if and only if no registration renames a key. */
  lemma {:induction false} IndexAgreesExactly(ops: seq<Operation>)
    ensures AlwaysAgrees(ops) <==> NeverRenames(ops)
  {
    if ops != [] {
      var before, op := ops[..|ops| - 1], ops[|ops| - 1];
      IndexAgreesExactly(before);
      ReplayTables(before, (_: Tool) => true);
      if op.Register? && AlwaysAgrees(before) { RegisterKeepsIndex(Replay(before), op.tool); }
    }
  }

  /** With a '/' in a name one can: an unowned tool named like the key of an owned one takes over that key. */
  lemma SlashInNameBreaksIndex(user: string, project: string, name: string)
    requires user != "" && project != ""
    ensures var owned := Tool(name, Some(user), Some(project), None, 0);
      var intruder := Tool(Join([user, project, name], '/'), None, None, None, 1);
      !IndexAgrees(Replay([Register(owned), Register(intruder)]))
  {
    var owned := Tool(name, Some(user), Some(project), None, 0);
    var intruder := Tool(Join([user, project, name], '/'), None, None, None, 1);
    var t := Registered(EMPTY, owned);
    ReplayTwo(owned, intruder);
    LongerThanName(user, project, name);
    assert IndexAgrees(EMPTY);
    RegisterKeepsIndex(EMPTY, owned);
    RegisterKeepsIndex(t, intruder);
  }

  lemma LongerThanName(user: string, project: string, name: string)
    ensures |Join([user, project, name], '/')| > |name|
  {
    assert [user, project, name][1..] == [project, name] && [project, name][1..] == [name];
    assert Join([project, name], '/') == project + ['/'] + name;
  }

  lemma ReplayTwo(first: Tool, second: Tool)
    ensures Replay([Register(first), Register(second)]) == Registered(Registered(EMPTY, first), second)
  {
    var ops := [Register(first), Register(second)];
    assert ops[..|ops| - 1] == [Register(first)] && [Register(first)][..0] == [];
    assert Replay([Register(first)]) == Registered(EMPTY, first);
  }

  /******* Resolution *******/

  /** Who calls, and what for. */
  datatype Caller = Caller(username: Option<string>, project: Option<string>, category: Option<string>)

  /** The caller gave both a username and a project. */
  predicate Named(c: Caller) {
    Given(c.username) && Given(c.project)
  }

  /** The namespaced keys tried first, in order. */
  function Namespaced(name: string, c: Caller): seq<string> {
    if !Named(c) then [] else
    var general := Join([c.username.value, c.project.value, name], '/');
    if Given(c.category) then [Join([c.username.value, c.project.value, c.category.value, name], '/'), general]
    else [general]
  }

  /** What the display-name branch accepts for this caller. */
  predicate Accepts(tool: Tool, c: Caller) {
    Named(c) ==>
      tool.username == c.username && tool.project == c.project && (Given(c.category) ==> tool.category == c.category)
  }

  function FirstAccepted(tools: map<string, Tool>, keys: seq<string>, c: Caller): Option<string> {
    if keys == [] then None
    else if keys[0] in tools && Accepts(tools[keys[0]], c) then Some(keys[0])
    else FirstAccepted(tools, keys[1..], c)
  }

  function FirstPresent(tools: map<string, Tool>, keys: seq<string>): Option<string> {
    if keys == [] then None else if keys[0] in tools then Some(keys[0]) else FirstPresent(tools, keys[1..])
  }

  /** Key resolution: namespaced, then direct, then by display name among `byName`. */
  function Resolve(tools: map<string, Tool>, byName: seq<string>, name: string, c: Caller): Option<string> {
    var first := FirstPresent(tools, Namespaced(name, c));
    if first.Some? then first
    else if name in tools then Some(name)
    else FirstAccepted(tools, byName, c)
  }

  /** The same, but scanning the whole registry for the display name and the caller in one pass. */
  function ScanAccepted(tools: map<string, Tool>, order: seq<string>, name: string, c: Caller): Option<string> {
    if order == [] then None
    else if order[0] in tools && tools[order[0]].name == name && Accepts(tools[order[0]], c) then Some(order[0])
    else ScanAccepted(tools, order[1..], name, c)
  }

  lemma {:induction false} IndexOrderIsScanOrder(tools: map<string, Tool>, order: seq<string>, name: string, c: Caller)
    ensures FirstAccepted(tools, Scan(tools, order, name), c) == ScanAccepted(tools, order, name, c)
  {
    if order != [] { IndexOrderIsScanOrder(tools, order[1..], name, c); }
  }

  /** When the index agrees, resolving through it finds what a full scan would, for every caller. */
  lemma IndexResolvesLikeScan(t: Tables, name: string, c: Caller)
    requires IndexAgrees(t)
    ensures FirstAccepted(t.tools, Indexed(t, name), c) == ScanAccepted(t.tools, t.order, name, c)
    ensures Resolve(t.tools, Indexed(t, name), name, c) == Resolve(t.tools, Scan(t.tools, t.order, name), name, c)
  {
    IndexOrderIsScanOrder(t.tools, t.order, name, c);
  }

  /******* Authorization *******/

  /** How `call_tool_direct` goes on after resolution. */
  datatype Access = Run(key: string) | UnknownTool | MissingCaller | Unauthorized

  /** An empty key counts as no key; an owned tool runs only for its owner. */
  function Authorize(tools: map<string, Tool>, key: Option<string>, c: Caller): Access
    requires key.Some? ==> key.value in tools
  {
    if !Given(key) then UnknownTool
    else
      var tool := tools[key.value];
      if !Owned(tool) then Run(key.value)
      else if !Named(c) then MissingCaller
      else if tool.username != c.username || tool.project != c.project then Unauthorized
      else Run(key.value)
  }

  /** The tool records both a user and a project. */
  predicate HasOwner(tool: Tool) {
    tool.username.Some? && tool.username.value != "" && tool.project.Some? && tool.project.value != ""
  }

  predicate GaveBoth(c: Caller) {
    c.username.Some? && c.username.value != "" && c.project.Some? && c.project.value != ""
  }

  /** The answer to a call that was resolved to `key`: the tool runs exactly if it has no owner or the caller gave exactly
      its user and project; a caller who lacks one of the two, and a caller who differs, get their own errors. */
  ghost predicate AnswersCall(tools: map<string, Tool>, key: Option<string>, c: Caller, access: Access)
    requires key.Some? ==> key.value in tools
  {
    && (access.UnknownTool? <==> key.None? || key.value == "")
    && (forall k :: access == Run(k) <==>
          key == Some(k) && k != "" && (HasOwner(tools[k]) ==> tools[k].username == c.username && tools[k].project == c.project))
    && (access.MissingCaller? <==> key.Some? && key.value != "" && HasOwner(tools[key.value]) && !GaveBoth(c))
    && (access.Unauthorized? <==>
          && key.Some? && key.value != "" && HasOwner(tools[key.value]) && GaveBoth(c)
          && (tools[key.value].username != c.username || tools[key.value].project != c.project))
  }

  lemma AccessExactly(tools: map<string, Tool>, key: Option<string>, c: Caller)
    requires key.Some? ==> key.value in tools
    ensures AnswersCall(tools, key, c, Authorize(tools, key, c))
  {
    if key.Some? && key.value != "" && HasOwner(tools[key.value]) && !GaveBoth(c) {
      assert tools[key.value].username != c.username || tools[key.value].project != c.project;
    }
  }

  predicate FreeOption(o: Option<string>) {
    o.Some? ==> Free(o.value, '/')
  }

  predicate PlainTool(tool: Tool) {
    Free(tool.name, '/') && FreeOption(tool.username) && FreeOption(tool.project) && FreeOption(tool.category)
  }

  predicate PlainCaller(c: Caller) {
    FreeOption(c.username) && FreeOption(c.project) && FreeOption(c.category)
  }

  ghost predicate PlainTables(t: Tables) {
    KeysOk(t) && forall k <- t.tools :: PlainTool(t.tools[k])
  }

  lemma {:induction false} FirstAcceptedIs(tools: map<string, Tool>, keys: seq<string>, c: Caller)
    ensures var r := FirstAccepted(tools, keys, c); r.Some? ==> r.value in keys && r.value in tools && Accepts(tools[r.value], c)
  {
    if keys != [] { FirstAcceptedIs(tools, keys[1..], c); }
  }

  lemma {:induction false} FirstPresentIs(tools: map<string, Tool>, keys: seq<string>)
    ensures var r := FirstPresent(tools, keys); r.Some? ==> r.value in keys && r.value in tools
    ensures FirstPresent(tools, keys).None? ==> forall k <- keys :: k !in tools
  {
    if keys != [] {
      FirstPresentIs(tools, keys[1..]);
      assert forall k <- keys :: k == keys[0] || k in keys[1..];
    }
  }

  /** A registered tool whose key is joined from given '/'-free parts has those parts. */
  lemma KeyPartsKnown(t: Tables, key: string, parts: seq<string>)
    requires PlainTables(t) && key in t.tools && parts != [] && AllFree(parts, '/') && key == Join(parts, '/')
    ensures KeyParts(t.tools[key].name, t.tools[key].username, t.tools[key].project, t.tools[key].category) == parts
  {
    var tool := t.tools[key];
    assert PlainTool(tool);
    JoinInjective(KeyParts(tool.name, tool.username, tool.project, tool.category), parts, '/');
  }

  /** A namespaced hit belongs to the caller. */
  lemma NamespacedIsOwn(t: Tables, name: string, c: Caller, key: string)
    requires PlainTables(t) && PlainCaller(c) && Free(name, '/') && key in Namespaced(name, c) && key in t.tools
    ensures t.tools[key].username == c.username && t.tools[key].project == c.project
  {
    if Given(c.category) && key == Join([c.username.value, c.project.value, c.category.value, name], '/') {
      KeyPartsKnown(t, key, [c.username.value, c.project.value, c.category.value, name]);
    } else {
      KeyPartsKnown(t, key, [c.username.value, c.project.value, name]);
    }
  }

  /** A direct hit on a '/'-free name is a tool without an owner. */
  lemma DirectIsUnowned(t: Tables, name: string)
    requires PlainTables(t) && Free(name, '/') && name in t.tools
    ensures !Owned(t.tools[name])
  {
    assert [name][0] == name;
    KeyPartsKnown(t, name, [name]);
  }

  lemma ResolvedIsRegistered(tools: map<string, Tool>, byName: seq<string>, name: string, c: Caller)
    ensures var r := Resolve(tools, byName, name, c); r.Some? ==> r.value in tools
  {
    FirstPresentIs(tools, Namespaced(name, c));
    FirstAcceptedIs(tools, byName, c);
  }

  /** With '/'-free names everywhere, a caller who gives a username and a project is never turned away:
      what it reaches is its own or nobody's. */
  lemma NamedCallerIsNeverTurnedAway(t: Tables, byName: seq<string>, name: string, c: Caller)
    requires PlainTables(t) && PlainCaller(c) && Free(name, '/') && Named(c)
    ensures var key := Resolve(t.tools, byName, name, c);
      && (key.Some? ==> key.value in t.tools)
      && (key.Some? && Owned(t.tools[key.value]) ==> t.tools[key.value].username == c.username && t.tools[key.value].project == c.project)
      && !Authorize(t.tools, key, c).MissingCaller? && !Authorize(t.tools, key, c).Unauthorized?
  {
    ResolvedIsRegistered(t.tools, byName, name, c);
    FirstPresentIs(t.tools, Namespaced(name, c));
    FirstAcceptedIs(t.tools, byName, c);
    var first := FirstPresent(t.tools, Namespaced(name, c));
    if first.Some? { NamespacedIsOwn(t, name, c, first.value); }
    else if name in t.tools { DirectIsUnowned(t, name); }
  }

  /** With a category given, the display-name branch finds nothing the namespaced keys did not. */
  lemma CategoryLeavesIndexNothing(t: Tables, name: string, c: Caller)
    requires PlainTables(t) && IndexAgrees(t) && Named(c) && Given(c.category)
    requires FirstPresent(t.tools, Namespaced(name, c)).None?
    ensures FirstAccepted(t.tools, Indexed(t, name), c).None?
  {
    var hit := FirstAccepted(t.tools, Indexed(t, name), c);
    FirstAcceptedIs(t.tools, Indexed(t, name), c);
    FirstPresentIs(t.tools, Namespaced(name, c));
    ScanMembers(t.tools, t.order, name);
    assert Indexed(t, name) == Scan(t.tools, t.order, name);
    var full := Join([c.username.value, c.project.value, c.category.value, name], '/');
    assert full == Namespaced(name, c)[0];
  }

  /** Put together over histories: after any registrations, re-registrations and clears of tools with '/'-free
      parts, resolving through the index finds what a full scan finds, and a caller who gives a username and a
      project reaches only its own tools and nobody's. */
  lemma ResolutionIsSafeAlways(ops: seq<Operation>, name: string, c: Caller)
    requires AllTools(ops, PlainTool) && PlainCaller(c) && Free(name, '/')
    ensures var t := Replay(ops); var key := Resolve(t.tools, Indexed(t, name), name, c);
      && key == Resolve(t.tools, Scan(t.tools, t.order, name), name, c)
      && (key.Some? ==> key.value in t.tools)
      && (Named(c) ==> !Authorize(t.tools, key, c).MissingCaller? && !Authorize(t.tools, key, c).Unauthorized?)
  {
    var t := Replay(ops);
    assert AllTools(ops, PlainName) by {
      forall op <- ops | op.Register? ensures PlainName(op.tool) { assert PlainTool(op.tool); }
    }
    IndexAgreesAlways(ops);
    ReplayTables(ops, PlainTool);
    IndexResolvesLikeScan(t, name, c);
    ResolvedIsRegistered(t.tools, Indexed(t, name), name, c);
    if Named(c) { NamedCallerIsNeverTurnedAway(t, Indexed(t, name), name, c); }
  }

  /** A '/' in the requested name does lead to a refusal, of a tool the caller does not own. */
  lemma SlashInRequestIsRefused()
    ensures var t := Registered(EMPTY, Tool("x", Some("v"), Some("q"), None, 0));
      var c := Caller(Some("u"), Some("p"), None);
      var key := Resolve(t.tools, Indexed(t, "v/q/x"), "v/q/x", c);
      key == Some("v/q/x") && "v/q/x" in t.tools && Authorize(t.tools, key, c).Unauthorized?
  {
    var tool := Tool("x", Some("v"), Some("q"), None, 0);
    assert ["v", "q", "x"][1..] == ["q", "x"] && ["q", "x"][1..] == ["x"];
    assert KeyOf(tool) == "v" + "/" + ("q" + "/" + "x") == "v/q/x";
    var longer := Join(["u", "p", "v/q/x"], '/');
    assert ["u", "p", "v/q/x"][1..] == ["p", "v/q/x"] && ["p", "v/q/x"][1..] == ["v/q/x"];
    assert longer == "u" + "/" + ("p" + "/" + "v/q/x");
    assert longer[0] == 'u';
    var t, c := Registered(EMPTY, tool), Caller(Some("u"), Some("p"), None);
    assert t.tools == map["v/q/x" := tool] && longer !in t.tools;
    assert Namespaced("v/q/x", c) == [longer] && [longer][1..] == [];
    assert FirstPresent(t.tools, [longer]).None?;
  }

  /******* The module-level tables *******/

  class Registry {
    var tools: map<string, Tool>
    var order: seq<string>
    var index: map<string, seq<string>>

    ghost function View(): Tables
      reads this
    {
      Tables(tools, order, index)
    }

    constructor ()
      ensures View() == EMPTY
    {
      tools, order, index := map[], [], map[];
    }

    /** The body of the `register_tool` decorator. */
    method Register(tool: Tool)
      modifies this
      ensures View() == Registered(old(View()), tool)
    {
      var key := KeyOf(tool);
      if key !in tools { order := order + [key]; }
      tools := tools[key := tool];
      if tool.name !in index { index := index[tool.name := []]; }
      if key !in index[tool.name] { index := index[tool.name := index[tool.name] + [key]]; }
    }

    /** The clearing part of `reload_plugins`. */
    method Clear()
      modifies this
      ensures View() == EMPTY
    {
      tools, order, index := map[], [], map[];
    }

    /** Resolution and the ownership check of `call_tool_direct`. */
    method Lookup(name: string, c: Caller) returns (access: Access)
      ensures var key := Resolve(tools, Indexed(View(), name), name, c);
        (key.Some? ==> key.value in tools) && access == Authorize(tools, key, c) && AnswersCall(tools, key, c, access)
    {
      ResolvedIsRegistered(tools, Indexed(View(), name), name, c);
      AccessExactly(tools, Resolve(tools, Indexed(View(), name), name, c), c);
      var key := FindNamespaced(name, c);
      if key.None? {
        if name in tools { key := Some(name); } else { key := FindByName(name, c); }
      }
      if !Given(key) { return UnknownTool; }
      var tool := tools[key.value];
      if Owned(tool) {
        if !Named(c) { return MissingCaller; }
        if tool.username != c.username || tool.project != c.project { return Unauthorized; }
      }
      return Run(key.value);
    }

    method FindNamespaced(name: string, c: Caller) returns (key: Option<string>)
      ensures key == FirstPresent(tools, Namespaced(name, c))
    {
      var candidates := Namespaced(name, c);
      var i := 0;
      while i < |candidates|
        invariant 0 <= i <= |candidates|
        invariant FirstPresent(tools, candidates) == FirstPresent(tools, candidates[i..])
      {
        if candidates[i] in tools { return Some(candidates[i]); }
        i := i + 1;
      }
      return None;
    }

    method FindByName(name: string, c: Caller) returns (key: Option<string>)
      ensures key == FirstAccepted(tools, Indexed(View(), name), c)
    {
      var keys := if name in index then index[name] else [];
      var i := 0;
      while i < |keys|
        invariant 0 <= i <= |keys|
        invariant FirstAccepted(tools, keys, c) == FirstAccepted(tools, keys[i..], c)
      {
        if keys[i] in tools {
          var info := tools[keys[i]];
          if Named(c) {
            if info.username == c.username && info.project == c.project {
              if !(Given(c.category) && info.category != c.category) { return Some(keys[i]); }
            }
          } else {
            return Some(keys[i]);
          }
        }
        i := i + 1;
      }
      return None;
    }
  }
}
