/** The tool registry: which tools a thread sees, and where a call of one goes. */
module ToolRegistry {
  import opened Wrappers
  import opened Text
  import opened ThreadAggregate

  /** A handler stands for its registered implementation. */
  type Handlers = map<string, nat>

  datatype Registry = Registry(alwaysVisible: Handlers, toolsets: map<string, Handlers>)

  /** One listed tool; the two that manage toolsets have no handler. */
  datatype Tool = Tool(name: string, handler: Option<nat>)

  datatype Route = BuiltIn | Routed(handler: nat) | NoRoute

  const EMPTY_REGISTRY := Registry(map[], map[])

  const COMPACT := "compact"
  const LOAD := "load_toolset"
  const UNLOAD := "unload_toolset"

  // ---- Registration ----------------------------------------------------------------------------

  /** `ensure_tool_name_available` */
  predicate Available(r: Registry, name: string) {
    name !in r.alwaysVisible && forall t | t in r.toolsets :: name !in r.toolsets[t]
  }

  datatype Registration =
    | Register(name: string, handler: nat)
    | RegisterIfMissing(builtin: string, handler: nat)
    | RegisterToolset(toolset: string, tools: seq<(string, nat)>)

  /** The handlers of a toolset under registration; a repeated or taken name stops it. */
  function Routes(r: Registry, tools: seq<(string, nat)>, taken: Handlers): Option<Handlers>
    decreases |tools|
  {
    if tools == [] then Some(taken)
    else if tools[0].0 in taken || !Available(r, tools[0].0) then None
    else Routes(r, tools[1..], taken[tools[0].0 := tools[0].1])
  }

  /** The registry after one registration; a refused one changes nothing. */
  function Registered(r: Registry, registration: Registration): Registry {
    match registration
    case Register(name, handler) => if Available(r, name) then r.(alwaysVisible := r.alwaysVisible[name := handler])
        else r
    case RegisterIfMissing(name, handler) =>
      if name in r.alwaysVisible then r else r.(alwaysVisible := r.alwaysVisible[name := handler])
    case RegisterToolset(toolset, tools) =>
      var routes := Routes(r, tools, map[]);
      if IsBlank(toolset) || routes.None? || toolset in r.toolsets then r
      else r.(toolsets := r.toolsets[toolset := routes.value])
  }

  function RegisteredAll(r: Registry, registrations: seq<Registration>): Registry
    decreases |registrations|
  {
    if registrations == [] then r else RegisteredAll(Registered(r, registrations[0]), registrations[1..])
  }

  /** Every tool name has one owner. */
  predicate OneOwner(r: Registry) {
    && (forall t, n | t in r.toolsets && n in r.toolsets[t] :: n !in r.alwaysVisible)
    && forall t, u, n | t in r.toolsets && u in r.toolsets && t != u && n in r.toolsets[t] :: n !in r.toolsets[u]
  }

  lemma {:induction false} RoutesAreAvailable(r: Registry, tools: seq<(string, nat)>, taken: Handlers)
    requires forall n | n in taken :: Available(r, n)
    ensures var routes := Routes(r, tools, taken); routes.Some? ==> forall n | n in routes.value :: Available(r, n)
    decreases |tools|
  {
    hide Available;
    if tools != [] && tools[0].0 !in taken && Available(r, tools[0].0) {
      RoutesAreAvailable(r, tools[1..], taken[tools[0].0 := tools[0].1]);
    }
  }

  /** Registering keeps one owner per name; `register_if_missing` does exactly when no toolset owns the name already. */
  lemma RegisteringKeeps(r: Registry, registration: Registration)
    requires OneOwner(r)
    ensures !registration.RegisterIfMissing? ==> OneOwner(Registered(r, registration))
    ensures registration.RegisterIfMissing? ==>
              (OneOwner(Registered(r, registration))
               <==> registration.builtin in r.alwaysVisible
                    || forall t | t in r.toolsets :: registration.builtin !in r.toolsets[t])
  {
    match registration
    case Register(_, _) =>
    case RegisterIfMissing(name, _) => assert name in Registered(r, registration).alwaysVisible;
    case RegisterToolset(toolset, tools) =>
      RoutesAreAvailable(r, tools, map[]);
      if Registered(r, registration) != r {
        AddedToolset(r, toolset, Routes(r, tools, map[]).value);
      }
  }

  lemma AddedToolset(r: Registry, toolset: string, handlers: Handlers)
    requires OneOwner(r) && toolset !in r.toolsets && forall n | n in handlers :: Available(r, n)
    ensures OneOwner(r.(toolsets := r.toolsets[toolset := handlers]))
  {
    var toolsets := r.toolsets[toolset := handlers];
    forall t, u, n | t in toolsets && u in toolsets && t != u && n in toolsets[t]
      ensures n !in toolsets[u]
    {
      if t == toolset {
        assert Available(r, n) && toolsets[u] == r.toolsets[u];
      } else if u == toolset {
        assert toolsets[t] == r.toolsets[t];
      }
    }
  }

  /** After any registrations through `register` and `register_toolset`, every name has one owner. */
  lemma {:induction false} RegistrationsKeep(r: Registry, registrations: seq<Registration>)
    requires OneOwner(r) && forall i | 0 <= i < |registrations| :: !registrations[i].RegisterIfMissing?
    ensures OneOwner(RegisteredAll(r, registrations))
    decreases |registrations|
  {
    hide OneOwner, Registered;
    if registrations != [] {
      RegisteringKeeps(r, registrations[0]);
      RegistrationsKeep(Registered(r, registrations[0]), registrations[1..]);
    }
  }

  // ---- Visibility and routing --------------------------------------------------------------------

  function ToolsOf(handlers: Handlers): set<Tool> {
    set n | n in handlers :: Tool(n, Some(handlers[n]))
  }

  /** Every loaded toolset is registered, as `open_tool` makes sure. */
  predicate AllRegistered(r: Registry, loaded: seq<string>) {
    forall i | 0 <= i < |loaded| :: loaded[i] in r.toolsets
  }

  function LoadedTools(r: Registry, loaded: seq<string>): multiset<Tool>
    requires AllRegistered(r, loaded)
  {
    if loaded == [] then multiset{}
    else LoadedTools(r, loaded[..|loaded| - 1]) + multiset(ToolsOf(r.toolsets[loaded[|loaded| - 1]]))
  }

  /** What the model is shown: always visible tools, the two toolset tools, and the loaded toolsets' tools. */
  function VisibleTools(r: Registry, loaded: seq<string>): multiset<Tool>
    requires AllRegistered(r, loaded)
  {
    multiset(ToolsOf(r.alwaysVisible)) + multiset{Tool(LOAD, None), Tool(UNLOAD, None)} + LoadedTools(r, loaded)
  }

  /** The first loaded toolset that has the tool answers; an unregistered one before it fails the call. */
  function RouteLoaded(r: Registry, loaded: seq<string>, name: string): Route
    decreases |loaded|
  {
    if loaded == [] || loaded[0] !in r.toolsets then NoRoute
    else if name in r.toolsets[loaded[0]] then Routed(r.toolsets[loaded[0]][name])
    else RouteLoaded(r, loaded[1..], name)
  }

  /** `call_for_context`; `compact` belongs to the agent loop. */
  function RouteCall(r: Registry, loaded: seq<string>, name: string): Route {
    if name == COMPACT then NoRoute
    else if name == LOAD || name == UNLOAD then BuiltIn
    else if name in r.alwaysVisible then Routed(r.alwaysVisible[name])
    else RouteLoaded(r, loaded, name)
  }

  function RouteOf(tool: Tool): Route {
    if tool.handler.Some? then Routed(tool.handler.value) else BuiltIn
  }

  /** The names that the registry and the agent loop keep for themselves. */
  predicate Reserved(name: string) {
    name == COMPACT || name == LOAD || name == UNLOAD
  }

  predicate NothingReserved(r: Registry) {
    && (forall n | n in r.alwaysVisible :: !Reserved(n))
    && forall t, n | t in r.toolsets && n in r.toolsets[t] :: !Reserved(n)
  }

  lemma {:induction false} LoadedToolsAre(r: Registry, loaded: seq<string>, tool: Tool)
    requires AllRegistered(r, loaded)
    ensures tool in LoadedTools(r, loaded)
       <==> tool.handler.Some? && exists i :: 0 <= i < |loaded| && tool.name in r.toolsets[loaded[i]]
                                              && r.toolsets[loaded[i]][tool.name] == tool.handler.value
  {
    if loaded != [] {
      var front, last := loaded[..|loaded| - 1], loaded[|loaded| - 1];
      LoadedToolsAre(r, front, tool);
      assert forall i | 0 <= i < |front| :: front[i] == loaded[i];
    }
  }

  lemma {:induction false} RouteLoadedIs(r: Registry, loaded: seq<string>, name: string)
    requires AllRegistered(r, loaded) && OneOwner(r)
    ensures forall i | 0 <= i < |loaded| && name in r.toolsets[loaded[i]] ::
              RouteLoaded(r, loaded, name) == Routed(r.toolsets[loaded[i]][name])
    ensures (forall i | 0 <= i < |loaded| :: name !in r.toolsets[loaded[i]]) ==> RouteLoaded(r, loaded, name) == NoRoute
    ensures !RouteLoaded(r, loaded, name).BuiltIn?
    decreases |loaded|
  {
    if loaded != [] {
      var rest := loaded[1..];
      assert forall i | 0 <= i < |rest| :: rest[i] == loaded[i + 1];
      RouteLoadedIs(r, rest, name);
      if name !in r.toolsets[loaded[0]] {
        forall i | 0 <= i < |loaded| && name in r.toolsets[loaded[i]]
          ensures RouteLoaded(r, loaded, name) == Routed(r.toolsets[loaded[i]][name])
        {
          assert loaded[i] == rest[i - 1];
        }
      }
    }
  }

  /** A tool is shown to the model exactly when calling its name reaches it. */
  lemma VisibleIsRouted(r: Registry, loaded: seq<string>, tool: Tool)
    requires OneOwner(r) && NothingReserved(r) && AllRegistered(r, loaded)
    requires tool.handler.None? ==> tool.name == LOAD || tool.name == UNLOAD
    ensures tool in VisibleTools(r, loaded) <==> RouteCall(r, loaded, tool.name) == RouteOf(tool)
  {
    hide LoadedTools, RouteLoaded;
    LoadedToolsAre(r, loaded, tool);
    RouteLoadedIs(r, loaded, tool.name);
    assert tool in multiset(ToolsOf(r.alwaysVisible)) <==> tool in ToolsOf(r.alwaysVisible);
    assert Reserved(tool.name) ==> forall i | 0 <= i < |loaded| :: tool.name !in r.toolsets[loaded[i]];
    NamesDiffer();
  }

  lemma NamesDiffer()
    ensures LOAD != UNLOAD && COMPACT != LOAD && COMPACT != UNLOAD
  {
    assert |LOAD| == 12 && |UNLOAD| == 14 && |COMPACT| == 7;
  }

  // ---- What a registration makes reachable ---------------------------------------------------------

  /** A toolset's tools can be registered: no name is taken, or repeated. */
  predicate AllNew(r: Registry, tools: seq<(string, nat)>) {
    && (forall i | 0 <= i < |tools| :: Available(r, tools[i].0))
    && forall i, j | 0 <= i < j < |tools| :: tools[i].0 != tools[j].0
  }

  lemma {:induction false} RoutesExactly(r: Registry, tools: seq<(string, nat)>, taken: Handlers)
    ensures Routes(r, tools, taken).Some?
       <==> AllNew(r, tools) && forall i | 0 <= i < |tools| :: tools[i].0 !in taken
    ensures var routes := Routes(r, tools, taken);
            routes.Some? ==> && (forall n | n in taken :: n in routes.value && routes.value[n] == taken[n])
                             && forall i | 0 <= i < |tools| ::
                                  tools[i].0 in routes.value && routes.value[tools[i].0] == tools[i].1
    decreases |tools|
  {
    hide Available;
    if tools != [] && tools[0].0 !in taken && Available(r, tools[0].0) {
      var rest, more := tools[1..], taken[tools[0].0 := tools[0].1];
      RoutesExactly(r, rest, more);
      assert forall i | 0 < i < |tools| :: tools[i] == rest[i - 1];
      if Routes(r, tools, taken).Some? {
        forall i, j | 0 <= i < j < |tools| ensures tools[i].0 != tools[j].0 {
          assert tools[j] == rest[j - 1] && (i == 0 || tools[i] == rest[i - 1]);
        }
        assert forall n | n in taken :: n in more && more[n] == taken[n];
      }
      if AllNew(r, tools) && forall i | 0 <= i < |tools| :: tools[i].0 !in taken {
        assert forall i | 0 <= i < |rest| :: rest[i] == tools[i + 1];
      }
    }
  }

  lemma {:induction false} RouteLoadedReads(r: Registry, s: Registry, loaded: seq<string>, name: string)
    requires forall i | 0 <= i < |loaded| :: loaded[i] in r.toolsets <==> loaded[i] in s.toolsets
    requires forall i | 0 <= i < |loaded| && loaded[i] in r.toolsets :: r.toolsets[loaded[i]] == s.toolsets[loaded[i]]
    ensures RouteLoaded(r, loaded, name) == RouteLoaded(s, loaded, name)
    decreases |loaded|
  {
    if loaded != [] {
      RouteLoadedReads(r, s, loaded[1..], name);
    }
  }

  /**
   * A tool that is registered for every thread is what a call of its name reaches, whatever toolsets are
   * loaded, unless the name was taken or is reserved; and no other call goes anywhere else than before.
   */
  lemma RegisteredIsRouted(r: Registry, name: string, handler: nat, loaded: seq<string>, called: string)
    ensures RouteCall(Registered(r, Register(name, handler)), loaded, called)
         == if called == name && Available(r, name) && !Reserved(name) then Routed(handler)
            else RouteCall(r, loaded, called)
  {
    RouteLoadedReads(r, Registered(r, Register(name, handler)), loaded, called);
  }

  /** `register_if_missing` keeps the handler of a name that is always visible, and otherwise takes the name over. */
  lemma MissingIsRouted(r: Registry, name: string, handler: nat, loaded: seq<string>, called: string)
    ensures RouteCall(Registered(r, RegisterIfMissing(name, handler)), loaded, called)
         == if called == name && name !in r.alwaysVisible && !Reserved(name) then Routed(handler)
            else RouteCall(r, loaded, called)
  {
    RouteLoadedReads(r, Registered(r, RegisterIfMissing(name, handler)), loaded, called);
  }

  /**
   * A static toolset is registered exactly when its name is new and not blank and all its tools are new.
   * Each of its tools is then what a call of its name reaches in the threads that have loaded the toolset, whatever
   * else they have loaded; the other threads' calls go where they went. A refused toolset changes nothing.
   */
  lemma RegisteredToolsetIsRouted(
    r: Registry, toolset: string, tools: seq<(string, nat)>, loaded: seq<string>, called: string)
    requires OneOwner(r)
    ensures var after := Registered(r, Registration.RegisterToolset(toolset, tools));
            && (after != r <==> !IsBlank(toolset) && toolset !in r.toolsets && AllNew(r, tools))
            && (toolset !in loaded ==> RouteCall(after, loaded, called) == RouteCall(r, loaded, called))
            && (after != r && toolset in loaded && AllRegistered(after, loaded) ==>
                  forall i | 0 <= i < |tools| && !Reserved(tools[i].0) ::
                    RouteCall(after, loaded, tools[i].0) == Routed(tools[i].1))
  {
    hide IsBlank, Available, OneOwner, RouteLoaded;
    var registration := Registration.RegisterToolset(toolset, tools);
    var after := Registered(r, registration);
    RoutesExactly(r, tools, map[]);
    if after != r {
      assert toolset in after.toolsets;
    }
    if toolset !in loaded {
      RouteLoadedReads(r, after, loaded, called);
    } else if after != r && AllRegistered(after, loaded) {
      RegisteringKeeps(r, registration);
      var k :| 0 <= k < |loaded| && loaded[k] == toolset;
      forall i | 0 <= i < |tools| && !Reserved(tools[i].0)
        ensures RouteCall(after, loaded, tools[i].0) == Routed(tools[i].1)
      {
        RouteLoadedIs(after, loaded, tools[i].0);
        assert tools[i].0 in after.toolsets[loaded[k]];
        NotAlways(after, toolset, tools[i].0);
      }
    }
  }

  lemma NotAlways(r: Registry, toolset: string, name: string)
    requires OneOwner(r) && toolset in r.toolsets && name in r.toolsets[toolset]
    ensures name !in r.alwaysVisible
  {
  }

  // ---- Names in a listing ------------------------------------------------------------------------

  /** No name is listed twice. */
  ghost predicate NamedOnce(tools: multiset<Tool>) {
    && (forall t | t in tools :: tools[t] == 1)
    && forall t, u | t in tools && u in tools && t.name == u.name :: t == u
  }

  predicate Distinct(loaded: seq<string>) {
    forall i, j | 0 <= i < j < |loaded| :: loaded[i] != loaded[j]
  }

  lemma {:induction false} LoadedOnce(r: Registry, loaded: seq<string>)
    requires OneOwner(r) && AllRegistered(r, loaded) && Distinct(loaded)
    ensures NamedOnce(LoadedTools(r, loaded))
  {
    if loaded != [] {
      var front, last := loaded[..|loaded| - 1], loaded[|loaded| - 1];
      LoadedOnce(r, front);
      forall t | t in LoadedTools(r, front) ensures t.name !in r.toolsets[last] {
        LoadedToolsAre(r, front, t);
        var i :| 0 <= i < |front| && t.name in r.toolsets[front[i]];
        assert front[i] == loaded[i];
      }
      assert forall t | t in ToolsOf(r.toolsets[last]) :: t.name in r.toolsets[last];
    }
  }

  /** With distinct toolsets loaded, no name is listed twice exactly when none takes the name of a toolset tool. */
  lemma ListedOnce(r: Registry, loaded: seq<string>)
    requires OneOwner(r) && AllRegistered(r, loaded) && Distinct(loaded)
    ensures NamedOnce(VisibleTools(r, loaded))
       <==> forall t | t in VisibleTools(r, loaded) && t.handler.Some? :: t.name != LOAD && t.name != UNLOAD
  {
    hide LoadedTools, Distinct, ToolsOf;
    NamesDiffer();
    LoadedOnce(r, loaded);
    AlwaysOnce(r);
    forall t | t in LoadedTools(r, loaded) ensures t.handler.Some? && t.name !in r.alwaysVisible {
      LoadedToolsAre(r, loaded, t);
    }
    assert Tool(LOAD, None) in VisibleTools(r, loaded) && Tool(UNLOAD, None) in VisibleTools(r, loaded);
  }

  lemma AlwaysOnce(r: Registry)
    ensures forall t | t in multiset(ToolsOf(r.alwaysVisible)) ::
              t.handler.Some? && t.name in r.alwaysVisible && t.handler.value == r.alwaysVisible[t.name]
              && multiset(ToolsOf(r.alwaysVisible))[t] == 1
  {
  }

  // ---- Sorting a listing -------------------------------------------------------------------------

  predicate SortedByName(tools: seq<Tool>) {
    forall i, j | 0 <= i < j < |tools| :: !Before(tools[j].name, tools[i].name)
  }

  function InsertTool(tools: seq<Tool>, t: Tool): (r: seq<Tool>)
    ensures multiset(r) == multiset(tools) + multiset{t}
  {
    if tools == [] || Before(t.name, tools[0].name) then [t] + tools
    else
      assert tools == [tools[0]] + tools[1..];
      [tools[0]] + InsertTool(tools[1..], t)
  }

  lemma NotAfterTransitive(a: string, b: string, c: string)
    requires !Before(b, a) && !Before(c, b)
    ensures !Before(c, a)
  {
    BeforeTotal(a, b);
    if Before(c, a) && a != b {
      BeforeTransitive(c, a, b);
    }
  }

  lemma {:induction false} InsertToolSorts(tools: seq<Tool>, t: Tool)
    requires SortedByName(tools)
    ensures SortedByName(InsertTool(tools, t))
  {
    hide Before;
    if tools == [] {
    } else if Before(t.name, tools[0].name) {
      BeforeTotal(t.name, tools[0].name);
      forall j | 0 <= j < |tools| ensures !Before(tools[j].name, t.name) {
        if j > 0 {
          NotAfterTransitive(t.name, tools[0].name, tools[j].name);
        }
      }
    } else {
      InsertToolSorts(tools[1..], t);
      var rest := InsertTool(tools[1..], t);
      forall j | 0 <= j < |rest| ensures !Before(rest[j].name, tools[0].name) {
        assert rest[j] in multiset(rest);
        assert rest[j] == t || rest[j] in multiset(tools[1..]);
        if rest[j] != t {
          var k :| 0 <= k < |tools[1..]| && tools[1..][k] == rest[j];
          assert tools[1..][k] == tools[k + 1];
        }
      }
    }
  }

  lemma NothingToSort()
    ensures SortedByName([])
  {
  }

  function Among(handlers: Handlers, names: set<string>): Handlers {
    map n | n in handlers && n in names :: handlers[n]
  }

  lemma AmongGrows(handlers: Handlers, names: set<string>, name: string)
    requires name in handlers && name !in names
    ensures multiset(ToolsOf(Among(handlers, names + {name})))
         == multiset(ToolsOf(Among(handlers, names))) + multiset{Tool(name, Some(handlers[name]))}
  {
    var before, after := ToolsOf(Among(handlers, names)), ToolsOf(Among(handlers, names + {name}));
    var t := Tool(name, Some(handlers[name]));
    var less, more := Among(handlers, names), Among(handlers, names + {name});
    assert forall n | n in less :: n in more && more[n] == less[n];
    assert more[name] == handlers[name] && t in after;
    forall u ensures u in after <==> u in before + {t} {
      if u in before {
        assert u.name in less;
        assert Tool(u.name, Some(more[u.name])) in after;
      }
      if u in after && u != t {
        assert u.name in less;
      }
    }
    assert after == before + {t} && t !in before;
  }

  lemma AmongBounds(handlers: Handlers)
    ensures ToolsOf(Among(handlers, {})) == {} && Among(handlers, handlers.Keys) == handlers
  {
  }

  /** What a static toolset's runtime says when it is unloaded, if it has one. */
  datatype UnloadCallback = NoCallback | CallbackSucceeds | CallbackFails

  /** Only a loaded toolset that is registered has its callback run. */
  predicate UnloadFails(r: Registry, loaded: seq<string>, name: string, callback: UnloadCallback) {
    name in loaded && name in r.toolsets && callback == CallbackFails
  }

  // ---- The registry, updated in place --------------------------------------------------------------

  class Tools {
    var alwaysVisible: Handlers
    var toolsets: map<string, Handlers>

    function View(): Registry
      reads this
    {
      Registry(alwaysVisible, toolsets)
    }

    constructor ()
      ensures View() == EMPTY_REGISTRY
    {
      alwaysVisible, toolsets := map[], map[];
    }

    method RegisterTool(name: string, handler: nat) returns (ok: bool)
      modifies this
      ensures View() == Registered(old(View()), Register(name, handler))
      ensures ok == Available(old(View()), name)
    {
      if !Available(View(), name) {
        return false;
      }
      alwaysVisible := alwaysVisible[name := handler];
      ok := true;
    }

    method RegisterToolIfMissing(name: string, handler: nat)
      modifies this
      ensures View() == Registered(old(View()), RegisterIfMissing(name, handler))
      ensures name in alwaysVisible
              && alwaysVisible[name] == if name in old(alwaysVisible) then old(alwaysVisible)[name] else handler
    {
      if name !in alwaysVisible {
        alwaysVisible := alwaysVisible[name := handler];
      }
    }

    /** `register_toolset_with_runtime` */
    method RegisterStaticToolset(toolset: string, tools: seq<(string, nat)>) returns (ok: bool)
      modifies this
      ensures View() == Registered(old(View()), Registration.RegisterToolset(toolset, tools))
      ensures ok <==> !IsBlank(toolset) && Routes(old(View()), tools, map[]).Some? && toolset !in old(toolsets)
    {
      hide IsBlank, Available;
      if IsBlank(toolset) {
        return false;
      }
      var routed: Handlers, i := map[], 0;
      while i < |tools|
        invariant i <= |tools|
        invariant Routes(View(), tools[i..], routed) == Routes(View(), tools, map[])
      {
        assert tools[i..][1..] == tools[i + 1..];
        if tools[i].0 in routed || !Available(View(), tools[i].0) {
          return false;
        }
        routed := routed[tools[i].0 := tools[i].1];
        i := i + 1;
      }
      if toolset in toolsets {
        return false;
      }
      toolsets := toolsets[toolset := routed];
      ok := true;
    }

    /** `list_for_context_static`: everything visible, by name; an unregistered loaded toolset fails it. */
    method ListForContext(thread: Thread) returns (listed: Option<seq<Tool>>)
      ensures listed.Some? <==> AllRegistered(View(), thread.loadedToolsets)
      ensures listed.Some? ==>
                SortedByName(listed.value) && multiset(listed.value) == VisibleTools(View(), thread.loadedToolsets)
    {
      hide SortedByName, ToolsOf, InsertTool;
      var loaded := thread.loadedToolsets;
      NothingToSort();
      var tools := AddTools([], alwaysVisible);
      InsertToolSorts(tools, Tool(LOAD, None));
      tools := InsertTool(tools, Tool(LOAD, None));
      InsertToolSorts(tools, Tool(UNLOAD, None));
      tools := InsertTool(tools, Tool(UNLOAD, None));
      var i := 0;
      while i < |loaded|
        invariant i <= |loaded|
        invariant AllRegistered(View(), loaded[..i])
        invariant SortedByName(tools) && multiset(tools) == VisibleTools(View(), loaded[..i])
      {
        if loaded[i] !in toolsets {
          return None;
        }
        assert loaded[..i + 1][..i] == loaded[..i];
        tools := AddTools(tools, toolsets[loaded[i]]);
        i := i + 1;
      }
      assert loaded[..i] == loaded;
      listed := Some(tools);
    }

    method AddTools(tools: seq<Tool>, handlers: Handlers) returns (r: seq<Tool>)
      requires SortedByName(tools)
      ensures SortedByName(r) && multiset(r) == multiset(tools) + multiset(ToolsOf(handlers))
    {
      hide SortedByName, InsertTool, ToolsOf, Among;
      r := tools;
      AmongBounds(handlers);
      var names, todo := {}, handlers.Keys;
      while todo != {}
        invariant names + todo == handlers.Keys && names !! todo
        invariant SortedByName(r)
        invariant multiset(r) == multiset(tools) + multiset(ToolsOf(Among(handlers, names)))
        decreases todo
      {
        var name :| name in todo;
        var t := Tool(name, Some(handlers[name]));
        AmongGrows(handlers, names, name);
        InsertToolSorts(r, t);
        r := InsertTool(r, t);
        names, todo := names + {name}, todo - {name};
      }
      assert names == handlers.Keys;
    }

    /** Where `call_for_context` sends a call. */
    method RouteForContext(thread: Thread, name: string) returns (route: Route)
      ensures route == RouteCall(View(), thread.loadedToolsets, name)
    {
      if name == COMPACT {
        return NoRoute;
      }
      if name == LOAD || name == UNLOAD {
        return BuiltIn;
      }
      if name in alwaysVisible {
        return Routed(alwaysVisible[name]);
      }
      var loaded, i := thread.loadedToolsets, 0;
      while i < |loaded|
        invariant i <= |loaded|
        invariant RouteLoaded(View(), loaded[i..], name) == RouteLoaded(View(), loaded, name)
      {
        assert loaded[i..][1..] == loaded[i + 1..];
        if loaded[i] !in toolsets {
          return NoRoute;
        }
        if name in toolsets[loaded[i]] {
          return Routed(toolsets[loaded[i]][name]);
        }
        i := i + 1;
      }
      route := NoRoute;
    }

    /**
     * `open_tool`: only registered toolsets are loaded; the value says whether it was new, and no value
     * means an error.
     */
    method OpenTool(thread: Thread, name: string) returns (inserted: Option<bool>)
      modifies thread
      ensures inserted.Some? <==> Trim(name) != "" && Trim(name) in toolsets
      ensures thread.State() == if inserted.Some? then Apply(old(thread.State()), OpLoadToolset(Trim(name)))
              else old(thread.State())
      ensures AllRegistered(View(), old(thread.loadedToolsets)) ==> AllRegistered(View(), thread.loadedToolsets)
    {
      hide Trim, InsertName;
      var trimmed := Trim(name);
      if trimmed == "" || trimmed !in toolsets {
        return None;
      }
      TrimFixesTrimmed(name);
      var added := thread.LoadToolset(trimmed);
      inserted := Some(added);
      InsertedAreRegistered(View(), old(thread.loadedToolsets), trimmed);
    }

    /**
     * `close_tool`: a loaded toolset's callback runs first, and its failure aborts the unload. No
     * value means an error.
     */
    method CloseTool(thread: Thread, name: string, callback: UnloadCallback) returns (removed: Option<bool>)
      modifies thread
      ensures removed.Some?
         <==> Trim(name) != "" && !UnloadFails(View(), old(thread.loadedToolsets), Trim(name), callback)
      ensures removed.Some? ==> (removed.value <==> Trim(name) in old(thread.loadedToolsets))
      ensures thread.State() == if removed.Some? then Apply(old(thread.State()), OpUnloadToolset(Trim(name)))
              else old(thread.State())
    {
      hide Trim, RemoveName;
      var trimmed := Trim(name);
      if trimmed == "" {
        return None;
      }
      if trimmed in thread.loadedToolsets && trimmed in toolsets && callback == CallbackFails {
        return None;
      }
      var was := thread.UnloadToolset(trimmed);
      removed := Some(was);
    }
  }

  lemma InsertedAreRegistered(r: Registry, loaded: seq<string>, name: string)
    requires name in r.toolsets
    ensures AllRegistered(r, loaded) ==> AllRegistered(r, InsertName(loaded, name))
  {
    if AllRegistered(r, loaded) {
      var inserted := InsertName(loaded, name);
      forall i | 0 <= i < |inserted| ensures inserted[i] in r.toolsets {
        assert inserted[i] in inserted;
      }
    }
  }
}
