/** The query handler for puppeteer's own selector syntax (`PQueryHandler`):
    before any query it prepares the page that will run it, by exposing the
    ARIA all-matches function and installing every registered custom
    handler's all-matches function as a window global; then it delegates to
    the base query handler. */
module PQueryHandlers {
  import opened Wrappers

  /** The prefix of the window global a custom handler is installed under. */
  const GlobalPrefix := "customQuerySelectorAll_"

  /** The name the ARIA all-matches function is exposed under. */
  const AriaBindingName := "customQuerySelectorAll_aria"

  /** The window global for the custom handler registered as `handler`. */
  function GlobalName(handler: string): string
  {
    GlobalPrefix + handler
  }

  /** The ARIA binding follows the same naming rule as the custom handlers. */
  lemma AriaFollowsNamingRule()
    ensures AriaBindingName == GlobalName("aria")
  {
  }

  /** Distinct handler names give distinct globals. */
  lemma GlobalNameInjective(a: string, b: string)
    ensures GlobalName(a) == GlobalName(b) <==> a == b
  {
    if GlobalName(a) == GlobalName(b) {
      assert a == GlobalName(a)[|GlobalPrefix|..];
      assert b == GlobalName(b)[|GlobalPrefix|..];
    }
  }

  /** A script registered to run in every new document of a page: the
      installer of one custom handler (its function text is not modelled). */
  datatype Script = InstallEngine(handler: string)

  /** The function a new document holds under a handler's global: the one
      rebuilt from that handler's all-matches source text. */
  datatype Engine = Engine(handler: string)

  /** The custom globals of a new document: its installer scripts run in
      order, and each `Object.assign` overwrites the key it sets. */
  function Globals(scripts: seq<Script>): map<string, Engine>
    decreases |scripts|
  {
    if scripts == [] then map[]
    else
      var last := scripts[|scripts| - 1];
      Globals(scripts[..|scripts| - 1])[GlobalName(last.handler) := Engine(last.handler)]
  }

  /** Running two lists of scripts one after the other: where both set a
      global, the later one wins. */
  lemma {:induction false} GlobalsConcat(a: seq<Script>, b: seq<Script>)
    ensures Globals(a + b) == Globals(a) + Globals(b)
    decreases |b|
  {
    if b != [] {
      var init := b[..|b| - 1];
      var last := b[|b| - 1];
      assert (a + b)[..|a + b| - 1] == a + init;
      GlobalsConcat(a, init);
      var key, v := GlobalName(last.handler), Engine(last.handler);
      assert Globals(a + b) == (Globals(a) + Globals(init))[key := v];
      assert Globals(b) == Globals(init)[key := v];
      assert (Globals(a) + Globals(init))[key := v] == Globals(a) + Globals(init)[key := v];
    } else {
      assert a + b == a;
    }
  }

  /** Every global a document holds is named after a handler and holds that
      handler's engine. */
  lemma {:induction false} GlobalsWellNamed(scripts: seq<Script>)
    ensures forall key :: key in Globals(scripts) ==>
      && |GlobalPrefix| <= |key|
      && key == GlobalName(key[|GlobalPrefix|..])
      && Globals(scripts)[key] == Engine(key[|GlobalPrefix|..])
    decreases |scripts|
  {
    if scripts != [] {
      GlobalsWellNamed(scripts[..|scripts| - 1]);
      var h := scripts[|scripts| - 1].handler;
      assert GlobalName(h)[|GlobalPrefix|..] == h;
    }
  }

  /** Running scripts that only set globals a document already holds
      changes none of them. */
  lemma GlobalsAbsorb(base: seq<Script>, extra: seq<Script>)
    requires forall key :: key in Globals(extra) ==> key in Globals(base)
    ensures Globals(base + extra) == Globals(base)
  {
    GlobalsConcat(base, extra);
    GlobalsWellNamed(base);
    GlobalsWellNamed(extra);
    assert Globals(base) + Globals(extra) == Globals(base);
  }

  /** The global of `handler`, when present, holds that handler's engine. */
  lemma GlobalsNamed(scripts: seq<Script>, handler: string)
    requires GlobalName(handler) in Globals(scripts)
    ensures Globals(scripts)[GlobalName(handler)] == Engine(handler)
  {
    GlobalsWellNamed(scripts);
    assert GlobalName(handler)[|GlobalPrefix|..] == handler;
  }

  /** A node of a document, as the in-page query functions see it. */
  type NodeRef = nat

  /** The options `waitFor` passes through to the base handler. */
  datatype WaitForOptions = WaitForOptions(visible: bool, hidden: bool, timeout: int)

  /** A frame of a page (`frame.page()` is its page). */
  datatype Frame = Frame(page: Page)

  /** An element handle (`element.frame` is the frame it lives in). */
  datatype Element = Element(frame: Frame, node: NodeRef)

  /** What `waitFor` is given: an element or a frame. */
  datatype Target = OfElement(element: Element) | OfFrame(frame: Frame)

  /** The query the base handler is asked to run. */
  datatype Query =
    | QueryAllOf(element: Element, selector: string)
    | QueryOneOf(element: Element, selector: string)
    | WaitForOf(target: Target, selector: string, options: WaitForOptions)

  /** Everything asked of a page, in order. */
  datatype Request =
    | ExposeRequest(name: string)
    | ScriptRequest(script: Script)
    | QueryRequest(query: Query)

  datatype PageState = PageState(
    bindings: set<string>,       // names exposed with `exposeFunction`
    scripts: seq<Script>,        // scripts registered for new documents, in order
    requests: seq<Request>)      // every request made of the page, in order

  /** `exposeFunction(name, ...)`: refused when the name is already exposed,
      or when the transport fails; either way the request was made. */
  function Expose(s: PageState, name: string, fault: bool): (r: PageState)
  {
    s.(bindings := if !fault && name !in s.bindings then s.bindings + {name} else s.bindings,
       requests := s.requests + [ExposeRequest(name)])
  }

  /** `evaluateOnNewDocument(script)`: the script is registered unless the
      transport fails. */
  function Inject(s: PageState, script: Script, fault: bool): (r: PageState)
  {
    s.(scripts := if fault then s.scripts else s.scripts + [script],
       requests := s.requests + [ScriptRequest(script)])
  }

  /** The page a query runs against. */
  class Page {
    var bindings: set<string>
    var scripts: seq<Script>
    var requests: seq<Request>

    function State(): PageState
      reads this
    {
      PageState(bindings, scripts, requests)
    }

    constructor ()
      ensures State() == PageState({}, [], [])
    {
      bindings, scripts, requests := {}, [], [];
    }

    /** Returns whether the function was exposed. */
    method ExposeFunction(name: string, fault: bool) returns (ok: bool)
      modifies this
      ensures State() == Expose(old(State()), name, fault)
      ensures ok <==> !fault && name !in old(bindings)
    {
      ok := !fault && name !in bindings;
      if ok {
        bindings := bindings + {name};
      }
      requests := requests + [ExposeRequest(name)];
    }

    /** Returns whether the script was registered. */
    method EvaluateOnNewDocument(script: Script, fault: bool) returns (ok: bool)
      modifies this
      ensures State() == Inject(old(State()), script, fault)
      ensures ok == !fault
    {
      ok := !fault;
      if ok {
        scripts := scripts + [script];
      }
      requests := requests + [ScriptRequest(script)];
    }

    /** The base query handler's query, run against this page; its result
        is not modelled. */
    method RunBaseQuery(query: Query)
      modifies this
      ensures State() == old(State()).(requests := old(requests) + [QueryRequest(query)])
    {
      requests := requests + [QueryRequest(query)];
    }
  }

  /** Which transport steps of one `#prepare` fail: the expose, and the
      injections at the given positions of the registry. */
  datatype Faults = Faults(expose: bool, inject: set<nat>)

  /** The injection loop over `handlers`; `k in failing` makes the
      injection for `handlers[k]` fail. */
  function InjectAll(s: PageState, handlers: seq<string>, failing: set<nat>): PageState
    decreases |handlers|
  {
    if handlers == [] then s
    else
      var k := |handlers| - 1;
      Inject(InjectAll(s, handlers[..k], failing), InstallEngine(handlers[k]), k in failing)
  }

  /** The page after `#prepare` with the registry `handlers`. */
  function Prepared(s: PageState, handlers: seq<string>, faults: Faults): PageState
  {
    InjectAll(Expose(s, AriaBindingName, faults.expose), handlers, faults.inject)
  }

  /** The page after `#prepare` and then the delegated query. */
  function Delegated(s: PageState, handlers: seq<string>, faults: Faults, query: Query): PageState
  {
    var p := Prepared(s, handlers, faults);
    p.(requests := p.requests + [QueryRequest(query)])
  }

  /** The installer requests for `handlers`, in registry order. */
  function InstallRequests(handlers: seq<string>): seq<Request>
  {
    seq(|handlers|, k requires 0 <= k < |handlers| => ScriptRequest(InstallEngine(handlers[k])))
  }

  /** The injection loop never stops early: whatever fails, it asks the page
      to register the installer of every handler, in registry order, and it
      leaves the bindings alone. */
  lemma {:induction false} InjectAllRequests(s: PageState, handlers: seq<string>, failing: set<nat>)
    ensures InjectAll(s, handlers, failing).requests == s.requests + InstallRequests(handlers)
    ensures InjectAll(s, handlers, failing).bindings == s.bindings
    decreases |handlers|
  {
    if handlers != [] {
      var k := |handlers| - 1;
      InjectAllRequests(s, handlers[..k], failing);
      assert InstallRequests(handlers) == InstallRequests(handlers[..k]) + [ScriptRequest(InstallEngine(handlers[k]))];
    }
  }

  /** The installers of the handlers whose injection does not fail, in
      registry order. */
  function Survivors(handlers: seq<string>, failing: set<nat>): seq<Script>
    decreases |handlers|
  {
    if handlers == [] then []
    else
      var k := |handlers| - 1;
      Survivors(handlers[..k], failing) + (if k in failing then [] else [InstallEngine(handlers[k])])
  }

  /** The injection loop appends to the page's scripts exactly the installers
      whose injection does not fail. */
  lemma {:induction false} InjectAllScripts(s: PageState, handlers: seq<string>, failing: set<nat>)
    ensures InjectAll(s, handlers, failing).scripts == s.scripts + Survivors(handlers, failing)
    decreases |handlers|
  {
    if handlers != [] {
      InjectAllScripts(s, handlers[..|handlers| - 1], failing);
    }
  }

  /** The surviving installers set the global of every handler whose
      injection does not fail, and no other global. */
  lemma {:induction false} SurvivorGlobals(handlers: seq<string>, failing: set<nat>)
    ensures forall k :: 0 <= k < |handlers| && k !in failing ==>
      GlobalName(handlers[k]) in Globals(Survivors(handlers, failing))
    ensures forall key :: key in Globals(Survivors(handlers, failing)) ==>
      exists k :: 0 <= k < |handlers| && k !in failing && key == GlobalName(handlers[k])
    decreases |handlers|
  {
    if handlers != [] {
      var k := |handlers| - 1;
      var init := handlers[..k];
      SurvivorGlobals(init, failing);
      var tail := if k in failing then [] else [InstallEngine(handlers[k])];
      GlobalsConcat(Survivors(init, failing), tail);
      assert k !in failing ==> Globals(tail) == map[][GlobalName(handlers[k]) := Engine(handlers[k])];
      assert k in failing ==> Globals(tail) == map[];
      forall j | 0 <= j < k
        ensures init[j] == handlers[j]
      {
      }
    }
  }

  /** `#prepare` never fails and makes its requests in a fixed order: first
      the ARIA expose, then one installer per registered handler, whatever
      fails along the way. */
  lemma PrepareRequests(s: PageState, handlers: seq<string>, faults: Faults)
    ensures Prepared(s, handlers, faults).requests ==
      s.requests + [ExposeRequest(AriaBindingName)] + InstallRequests(handlers)
  {
    InjectAllRequests(Expose(s, AriaBindingName, faults.expose), handlers, faults.inject);
  }

  /** The ARIA function is exposed afterwards exactly when it was exposed
      before or the expose did not fail; no other binding changes. */
  lemma PrepareBindings(s: PageState, handlers: seq<string>, faults: Faults)
    ensures AriaBindingName in Prepared(s, handlers, faults).bindings <==>
      AriaBindingName in s.bindings || !faults.expose
    ensures Prepared(s, handlers, faults).bindings - {AriaBindingName} == s.bindings - {AriaBindingName}
  {
    InjectAllRequests(Expose(s, AriaBindingName, faults.expose), handlers, faults.inject);
  }

  /** After `#prepare` a new document holds, under the global of every
      handler whose injection did not fail, that handler's engine; besides
      the globals it held before, it holds no other. */
  lemma PrepareGlobals(s: PageState, handlers: seq<string>, faults: Faults)
    ensures var g := Globals(Prepared(s, handlers, faults).scripts);
      forall k :: 0 <= k < |handlers| && k !in faults.inject ==>
        GlobalName(handlers[k]) in g && g[GlobalName(handlers[k])] == Engine(handlers[k])
    ensures var g := Globals(Prepared(s, handlers, faults).scripts);
      forall key :: key in g ==>
        key in Globals(s.scripts) || exists k :: 0 <= k < |handlers| && k !in faults.inject && key == GlobalName(handlers[k])
  {
    var e := Expose(s, AriaBindingName, faults.expose);
    InjectAllScripts(e, handlers, faults.inject);
    GlobalsConcat(s.scripts, Survivors(handlers, faults.inject));
    SurvivorGlobals(handlers, faults.inject);
    var g := Globals(Prepared(s, handlers, faults).scripts);
    forall k | 0 <= k < |handlers| && k !in faults.inject
      ensures GlobalName(handlers[k]) in g && g[GlobalName(handlers[k])] == Engine(handlers[k])
    {
      GlobalsNamed(Prepared(s, handlers, faults).scripts, handlers[k]);
    }
  }

  /** With no failing injection, `#prepare` adds one script per handler. */
  lemma {:induction false} SurvivorsAll(handlers: seq<string>)
    ensures Survivors(handlers, {}) == seq(|handlers|, k requires 0 <= k < |handlers| => InstallEngine(handlers[k]))
    decreases |handlers|
  {
    if handlers != [] {
      SurvivorsAll(handlers[..|handlers| - 1]);
    }
  }

  /** Preparing a prepared page again leaves a new document's globals as
      they were, provided no injection that failed the first time succeeds
      the second time: every installer it adds again overwrites a global
      with the same engine.  The bindings are unchanged once the ARIA
      function is exposed (a second expose of the same name is refused),
      while the list of new-document scripts grows by the second run's
      installers. */
  lemma PrepareIdempotent(s: PageState, handlers: seq<string>, first: Faults, second: Faults)
    requires forall k :: 0 <= k < |handlers| && k !in second.inject ==> k !in first.inject
    ensures var once := Prepared(s, handlers, first);
      var twice := Prepared(once, handlers, second);
      && Globals(twice.scripts) == Globals(once.scripts)
      && (AriaBindingName in once.bindings ==> twice.bindings == once.bindings)
      && twice.scripts == once.scripts + Survivors(handlers, second.inject)
  {
    var once := Prepared(s, handlers, first);
    var extra := Survivors(handlers, second.inject);
    InjectAllScripts(Expose(once, AriaBindingName, second.expose), handlers, second.inject);
    InjectAllRequests(Expose(once, AriaBindingName, second.expose), handlers, second.inject);
    PrepareGlobals(s, handlers, first);
    SurvivorGlobals(handlers, second.inject);
    forall key | key in Globals(extra)
      ensures key in Globals(once.scripts)
    {
      var k :| 0 <= k < |handlers| && k !in second.inject && key == GlobalName(handlers[k]);
      assert k !in first.inject;
    }
    GlobalsAbsorb(once.scripts, extra);
  }

  /** Two runs without failures: the same globals and bindings as one run,
      and twice the scripts. */
  lemma PrepareTwiceWithoutFaults(s: PageState, handlers: seq<string>)
    ensures var once := Prepared(s, handlers, Faults(false, {}));
      var twice := Prepared(once, handlers, Faults(false, {}));
      && Globals(twice.scripts) == Globals(once.scripts)
      && twice.bindings == once.bindings
      && |twice.scripts| == |once.scripts| + |handlers|
  {
    PrepareIdempotent(s, handlers, Faults(false, {}), Faults(false, {}));
    PrepareBindings(s, handlers, Faults(false, {}));
    SurvivorsAll(handlers);
  }

  /** `#prepare(page)`: expose the ARIA function, then register the installer
      of every custom handler; every failure is ignored. */
  method Prepare(page: Page, handlers: seq<string>, faults: Faults)
    modifies page
    ensures page.State() == Prepared(old(page.State()), handlers, faults)
  {
    var _ := page.ExposeFunction(AriaBindingName, faults.expose);
    ghost var exposed := page.State();
    for i := 0 to |handlers|
      invariant page.State() == InjectAll(exposed, handlers[..i], faults.inject)
    {
      var _ := page.EvaluateOnNewDocument(InstallEngine(handlers[i]), i in faults.inject);
      assert handlers[..i + 1][..i] == handlers[..i];
    }
    assert handlers[..|handlers|] == handlers;
  }

  /** `queryAll(element, selector)`: prepare the element's page, then
      delegate. */
  method QueryAll(element: Element, selector: string, handlers: seq<string>, faults: Faults)
    modifies element.frame.page
    ensures element.frame.page.State() ==
      Delegated(old(element.frame.page.State()), handlers, faults, QueryAllOf(element, selector))
  {
    Prepare(element.frame.page, handlers, faults);
    element.frame.page.RunBaseQuery(QueryAllOf(element, selector));
  }

  /** `queryOne(element, selector)`: prepare the element's page, then
      delegate. */
  method QueryOne(element: Element, selector: string, handlers: seq<string>, faults: Faults)
    modifies element.frame.page
    ensures element.frame.page.State() ==
      Delegated(old(element.frame.page.State()), handlers, faults, QueryOneOf(element, selector))
  {
    Prepare(element.frame.page, handlers, faults);
    element.frame.page.RunBaseQuery(QueryOneOf(element, selector));
  }

  /** The page `waitFor` prepares: the frame's own page, or the page of the
      element's frame. */
  function OwningPage(target: Target): Page
  {
    match target
    case OfFrame(frame) => frame.page
    case OfElement(element) => element.frame.page
  }

  /** `waitFor(elementOrFrame, selector, options)`. */
  method WaitFor(target: Target, selector: string, options: WaitForOptions,
                 handlers: seq<string>, faults: Faults)
    modifies OwningPage(target)
    ensures OwningPage(target).State() ==
      Delegated(old(OwningPage(target).State()), handlers, faults, WaitForOf(target, selector, options))
  {
    if !target.OfElement? {
      Prepare(target.frame.page, handlers, faults);
    } else {
      Prepare(target.element.frame.page, handlers, faults);
    }
    OwningPage(target).RunBaseQuery(WaitForOf(target, selector, options));
  }

  /** Every delegated query is preceded, on the page it runs against, by the
      whole of `#prepare`, and runs against the prepared bindings and scripts. */
  lemma PreparedBeforeDelegation(s: PageState, handlers: seq<string>, faults: Faults, query: Query)
    ensures var d := Delegated(s, handlers, faults, query);
      && d.requests == s.requests + [ExposeRequest(AriaBindingName)] + InstallRequests(handlers) + [QueryRequest(query)]
      && d.bindings == Prepared(s, handlers, faults).bindings
      && d.scripts == Prepared(s, handlers, faults).scripts
  {
    PrepareRequests(s, handlers, faults);
  }

  /** The in-page functions `querySelectorAll` and `querySelector` are handed. */
  datatype PSelectors = PSelectors(
    pQuerySelectorAll: (NodeRef, string) -> seq<NodeRef>,
    pQuerySelector: (NodeRef, string) -> Option<NodeRef>)

  /** The in-page all-matches function: `pQuerySelectorAll(element, selector)`. */
  function QuerySelectorAll(element: NodeRef, selector: string, fns: PSelectors): seq<NodeRef>
  {
    fns.pQuerySelectorAll(element, selector)
  }

  /** The in-page first-match function: `pQuerySelector(element, selector)`. */
  function QuerySelector(element: NodeRef, selector: string, fns: PSelectors): Option<NodeRef>
  {
    fns.pQuerySelector(element, selector)
  }
}
