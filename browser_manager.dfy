/** The registry of `BrowserManager` (pytest_dsl_ui/core/browser_manager.py): browsers, browser
    contexts and pages kept in three dictionaries under generated string ids, with a "current"
    pointer for each. The Playwright objects themselves are foreign; they are opaque handles here,
    and a call that would create one receives the handle Playwright returned as a parameter. */
module BrowserManagement {
  import opened Wrappers
  import opened PyStr

  /** A Playwright object (the driver, a browser, a context or a page). */
  datatype Handle = Handle(token: nat)

  /** The `ValueError`s the manager raises. */
  datatype Error =
    | UnsupportedBrowser(browserType: string)  // not chromium/firefox/webkit
    | NoBrowser                                // no id given and no current browser
    | UnknownBrowser(browserId: string)
    | NoContext                                // no id given and no current context
    | UnknownContext(contextId: string)
    | NoPage                                   // no current page, or it is gone
    | UnknownPage(pageId: string)

  type Registry = map<string, Handle>

  /** `f"{browser_type}_{len(self.browsers)}"`. */
  function BrowserId(browserType: string, n: nat): string {
    browserType + "_" + NatToString(n)
  }

  /** `f"{browser_id}_ctx_{len(self.contexts)}"`. */
  function ContextId(browserId: string, n: nat): string {
    browserId + "_ctx_" + NatToString(n)
  }

  /** `f"{context_id}_page_{len(self.pages)}"`. */
  function PageId(contextId: string, n: nat): string {
    contextId + "_page_" + NatToString(n)
  }

  /** The browser type `launch_browser` uses when none is given. */
  const DefaultBrowserType: string := "chromium"

  /** `browser_type.lower()` is one of the three engines Playwright ships. */
  predicate IsSupported(browserType: string) {
    Lower(browserType) == "chromium" || Lower(browserType) == "firefox" || Lower(browserType) == "webkit"
  }

  /** Two ids generated from the same owner (or type) differ exactly when their counters do. */
  lemma IdsDistinct(owner: string, m: nat, n: nat)
    requires m != n
    ensures BrowserId(owner, m) != BrowserId(owner, n)
    ensures ContextId(owner, m) != ContextId(owner, n)
    ensures PageId(owner, m) != PageId(owner, n)
  {
    if NatToString(m) == NatToString(n) {
      NatToStringInjective(m, n);
    }
    assert BrowserId(owner, m)[|owner| + 1..] == NatToString(m);
    assert BrowserId(owner, n)[|owner| + 1..] == NatToString(n);
    assert ContextId(owner, m)[|owner| + 5..] == NatToString(m);
    assert ContextId(owner, n)[|owner| + 5..] == NatToString(n);
    assert PageId(owner, m)[|owner| + 6..] == NatToString(m);
    assert PageId(owner, n)[|owner| + 6..] == NatToString(n);
  }

  /** The type check ignores case: "Chromium", "FIREFOX" or "WebKit" are accepted too. */
  lemma SupportedIgnoresCase(browserType: string)
    ensures IsSupported(browserType) <==>
              || (|browserType| == 8 && forall i :: 0 <= i < 8 ==> LowersTo(browserType[i], "chromium"[i]))
              || (|browserType| == 7 && forall i :: 0 <= i < 7 ==> LowersTo(browserType[i], "firefox"[i]))
              || (|browserType| == 6 && forall i :: 0 <= i < 6 ==> LowersTo(browserType[i], "webkit"[i]))
  {
    LowerMatches(browserType, "chromium");
    LowerMatches(browserType, "firefox");
    LowerMatches(browserType, "webkit");
  }

  /** Every id in `children` starts with some id in `parents`: each context belongs to a live
      browser and each page to a live context. */
  ghost predicate Owned(children: Registry, parents: Registry) {
    forall c :: c in children ==> exists p :: p in parents && p <= c
  }

  /** The entries whose id does not start with `prefix`: what the clean-up loops of
      `_close_browser_async` leave behind. */
  function WithoutPrefix(m: Registry, prefix: string): Registry {
    map k | k in m && !(prefix <= k) :: m[k]
  }

  /** `to_remove = [k for k in m.keys() if k.startswith(prefix)]; for k in to_remove: del m[k]`. */
  method DropPrefixed(m: Registry, prefix: string) returns (r: Registry)
    ensures r == WithoutPrefix(m, prefix)
    ensures forall k :: k in r ==> !(prefix <= k)
    ensures forall k :: k in m && !(prefix <= k) ==> k in r && r[k] == m[k]
  {
    var toRemove := set k | k in m && prefix <= k;
    r := m;
    while toRemove != {}
      invariant toRemove <= (set k | k in m && prefix <= k)
      invariant forall k :: k in r <==> k in m && (!(prefix <= k) || k in toRemove)
      invariant forall k :: k in r ==> r[k] == m[k]
      decreases |toRemove|
    {
      var k :| k in toRemove;
      r := r - {k};
      toRemove := toRemove - {k};
    }
  }

  /** Registering another parent keeps every child owned. */
  lemma OwnerAdded(children: Registry, parents: Registry, k: string, h: Handle)
    requires Owned(children, parents)
    ensures Owned(children, parents[k := h])
  {
    var grown := parents[k := h];
    forall c | c in children ensures exists p :: p in grown && p <= c {
      var p :| p in parents && p <= c;
      assert p in grown;
    }
  }

  /** Registering a child under an id that starts with a live parent's id keeps ownership. */
  lemma ChildAdded(children: Registry, parents: Registry, c: string, h: Handle, owner: string)
    requires Owned(children, parents)
    requires owner in parents && owner <= c
    ensures Owned(children[c := h], parents)
  {
  }

  /** A prefix of a prefix is a prefix. */
  lemma PrefixTransitive(a: string, b: string, c: string)
    requires a <= b && b <= c
    ensures a <= c
  {
    assert c[..|b|][..|a|] == c[..|a|];
  }

  /** Closing browser `b` keeps every context owned by the remaining browsers and every page
      owned by the remaining contexts: an entry whose owner is removed starts with `b` as well. */
  lemma CascadeKeepsOwnership(browsers: Registry, contexts: Registry, pages: Registry, b: string)
    requires Owned(contexts, browsers) && Owned(pages, contexts)
    ensures Owned(WithoutPrefix(contexts, b), browsers - {b})
    ensures Owned(WithoutPrefix(pages, b), WithoutPrefix(contexts, b))
  {
    var remaining := browsers - {b};
    forall c | c in WithoutPrefix(contexts, b)
      ensures exists p :: p in remaining && p <= c
    {
      var p :| p in browsers && p <= c;
      assert p != b;
      assert p in remaining;
    }
    forall q | q in WithoutPrefix(pages, b)
      ensures exists c :: c in WithoutPrefix(contexts, b) && c <= q
    {
      var c :| c in contexts && c <= q;
      if b <= c {
        PrefixTransitive(b, c, q);
        assert false;
      }
      assert c in WithoutPrefix(contexts, b);
    }
  }

  /** The prefix test of the clean-up reaches further than the browser's own entries: closing
      "chromium_1" also removes every context of "chromium_10". */
  lemma CascadeOverreach(contexts: Registry, n: nat)
    ensures ContextId(BrowserId("chromium", 10), n) !in WithoutPrefix(contexts, BrowserId("chromium", 1))
  {
    assert NatToString(10) == "10";
    assert NatToString(1) == "1";
    var c := ContextId(BrowserId("chromium", 10), n);
    assert c == "chromium_1" + "0_ctx_" + NatToString(n);
  }

  class BrowserManager {
    var playwright: Option<Handle>
    var browsers: Registry
    var contexts: Registry
    var pages: Registry
    var currentBrowser: Option<string>
    var currentContext: Option<string>
    var currentPage: Option<string>

    /** Contexts and pages belong to live owners, and the current browser, when there is one,
        is live. (The current context and page can outlive their browser: closing a browser that
        is not the current one leaves those pointers alone.) */
    ghost predicate Valid()
      reads this
    {
      && Owned(contexts, browsers)
      && Owned(pages, contexts)
      && (currentBrowser.Some? ==> currentBrowser.value in browsers)
    }

    /** `BrowserManager()`: nothing started, nothing registered. */
    constructor()
      ensures Valid()
      ensures playwright == None
      ensures browsers == map[] && contexts == map[] && pages == map[]
      ensures currentBrowser == None && currentContext == None && currentPage == None
    {
      playwright := None;
      browsers := map[];
      contexts := map[];
      pages := map[];
      currentBrowser := None;
      currentContext := None;
      currentPage := None;
    }

    /** `launch_browser`: start the driver if needed (`driver` is what starting it returns), check
        the browser type (`requested`, "chromium" when not given), and register the browser
        Playwright launched (`launched`) under `<type>_<number of browsers>` as the current
        browser. The type keeps its original case in the id. */
    method LaunchBrowser(requested: Option<string>, driver: Handle, launched: Handle) returns (r: Result<string, Error>)
      requires Valid()
      modifies this
      ensures Valid()
      ensures playwright == if old(playwright).None? then Some(driver) else old(playwright)
      ensures var browserType := if requested.Some? then requested.value else DefaultBrowserType;
        && (!IsSupported(browserType) ==>
              && r == Failure(UnsupportedBrowser(browserType))
              && browsers == old(browsers) && currentBrowser == old(currentBrowser))
        && (IsSupported(browserType) ==>
              && r == Success(BrowserId(browserType, |old(browsers)|))
              && browsers == old(browsers)[r.value := launched]
              && currentBrowser == Some(r.value))
      ensures requested.None? ==> r == Success(BrowserId("chromium", |old(browsers)|))
      ensures contexts == old(contexts) && pages == old(pages)
      ensures currentContext == old(currentContext) && currentPage == old(currentPage)
    {
      var browserType := if requested.Some? then requested.value else DefaultBrowserType;
      if playwright.None? {
        playwright := Some(driver);
      }
      var lowered := Lower(browserType);
      if lowered != "chromium" && lowered != "firefox" && lowered != "webkit" {
        return Failure(UnsupportedBrowser(browserType));
      }
      var browserId := browserType + "_" + NatToString(|browsers|);
      OwnerAdded(contexts, browsers, browserId, launched);
      browsers := browsers[browserId := launched];
      currentBrowser := Some(browserId);
      r := Success(browserId);
    }

    /** `create_context`: the given browser, or else the current one, gets a new context
        (`created`) registered under `<browser id>_ctx_<number of contexts>`, which becomes
        the current context. */
    method CreateContext(browserId: Option<string>, created: Handle) returns (r: Result<string, Error>)
      requires Valid()
      modifies this
      ensures Valid()
      ensures var id := if browserId.Some? then browserId else old(currentBrowser);
        && (id.None? ==> r == Failure(NoBrowser))
        && (id.Some? && id.value !in old(browsers) ==> r == Failure(UnknownBrowser(id.value)))
        && (r.Failure? ==> contexts == old(contexts) && currentContext == old(currentContext))
        && (id.Some? && id.value in old(browsers) ==>
              && r == Success(ContextId(id.value, |old(contexts)|))
              && contexts == old(contexts)[r.value := created]
              && currentContext == Some(r.value))
      ensures playwright == old(playwright) && browsers == old(browsers) && pages == old(pages)
      ensures currentBrowser == old(currentBrowser) && currentPage == old(currentPage)
    {
      var id := if browserId.Some? then browserId else currentBrowser;
      if id.None? {
        return Failure(NoBrowser);
      }
      if id.value !in browsers {
        return Failure(UnknownBrowser(id.value));
      }
      var contextId := id.value + "_ctx_" + NatToString(|contexts|);
      ChildAdded(contexts, browsers, contextId, created, id.value);
      OwnerAdded(pages, contexts, contextId, created);
      contexts := contexts[contextId := created];
      currentContext := Some(contextId);
      r := Success(contextId);
    }

    /** `create_page`: the given context, or else the current one, gets a new page (`created`)
        registered under `<context id>_page_<number of pages>`, which becomes the current page. */
    method CreatePage(contextId: Option<string>, created: Handle) returns (r: Result<string, Error>)
      requires Valid()
      modifies this
      ensures Valid()
      ensures var id := if contextId.Some? then contextId else old(currentContext);
        && (id.None? ==> r == Failure(NoContext))
        && (id.Some? && id.value !in old(contexts) ==> r == Failure(UnknownContext(id.value)))
        && (r.Failure? ==> pages == old(pages) && currentPage == old(currentPage))
        && (id.Some? && id.value in old(contexts) ==>
              && r == Success(PageId(id.value, |old(pages)|))
              && pages == old(pages)[r.value := created]
              && currentPage == Some(r.value))
      ensures playwright == old(playwright) && browsers == old(browsers) && contexts == old(contexts)
      ensures currentBrowser == old(currentBrowser) && currentContext == old(currentContext)
    {
      var id := if contextId.Some? then contextId else currentContext;
      if id.None? {
        return Failure(NoContext);
      }
      if id.value !in contexts {
        return Failure(UnknownContext(id.value));
      }
      var pageId := id.value + "_page_" + NatToString(|pages|);
      ChildAdded(pages, contexts, pageId, created, id.value);
      pages := pages[pageId := created];
      currentPage := Some(pageId);
      r := Success(pageId);
    }

    /** `get_current_page`: the current page, which must still be registered. */
    method GetCurrentPage() returns (r: Result<Handle, Error>)
      ensures r.Success? <==> currentPage.Some? && currentPage.value in pages
      ensures r.Success? ==> r.value == pages[currentPage.value]
      ensures r.Failure? ==> r.error == NoPage
    {
      if currentPage.None? || currentPage.value !in pages {
        return Failure(NoPage);
      }
      r := Success(pages[currentPage.value]);
    }

    /** `get_page`: the page registered under `pageId`. */
    method GetPage(pageId: string) returns (r: Result<Handle, Error>)
      ensures r.Success? <==> pageId in pages
      ensures r.Success? ==> r.value == pages[pageId]
      ensures r.Failure? ==> r.error == UnknownPage(pageId)
    {
      if pageId !in pages {
        return Failure(UnknownPage(pageId));
      }
      r := Success(pages[pageId]);
    }

    /** `switch_page`: make a registered page the current one; nothing else changes. */
    method SwitchPage(pageId: string) returns (err: Option<Error>)
      requires Valid()
      modifies this
      ensures Valid()
      ensures err == (if pageId in pages then None else Some(UnknownPage(pageId)))
      ensures currentPage == (if pageId in pages then Some(pageId) else old(currentPage))
      ensures playwright == old(playwright) && browsers == old(browsers)
      ensures contexts == old(contexts) && pages == old(pages)
      ensures currentBrowser == old(currentBrowser) && currentContext == old(currentContext)
    {
      if pageId !in pages {
        return Some(UnknownPage(pageId));
      }
      currentPage := Some(pageId);
      err := None;
    }

    /** `close_browser`: close the given browser, or else the current one. A registered browser is
        removed together with every context and page whose id starts with its id; the current
        pointers are all reset only when it was the current browser. With no browser to close,
        or an id that is not registered, nothing changes. */
    method CloseBrowser(browserId: Option<string>)
      requires Valid()
      modifies this
      ensures Valid()
      ensures var id := if browserId.Some? then browserId else old(currentBrowser);
        if id.Some? && id.value in old(browsers) then
          && browsers == old(browsers) - {id.value}
          && contexts == WithoutPrefix(old(contexts), id.value)
          && pages == WithoutPrefix(old(pages), id.value)
          && (if old(currentBrowser) == id
              then currentBrowser == None && currentContext == None && currentPage == None
              else currentBrowser == old(currentBrowser) && currentContext == old(currentContext)
                   && currentPage == old(currentPage))
        else
          && browsers == old(browsers) && contexts == old(contexts) && pages == old(pages)
          && currentBrowser == old(currentBrowser) && currentContext == old(currentContext)
          && currentPage == old(currentPage)
      ensures playwright == old(playwright)
    {
      var id := if browserId.Some? then browserId else currentBrowser;
      if id.None? {
        return;
      }
      var b := id.value;
      if b in browsers {
        CascadeKeepsOwnership(browsers, contexts, pages, b);
        browsers := browsers - {b};
        contexts := DropPrefixed(contexts, b);
        pages := DropPrefixed(pages, b);
        if currentBrowser == Some(b) {
          currentBrowser := None;
          currentContext := None;
          currentPage := None;
        }
      }
    }

    /** `close_all`: every browser closed, the driver stopped, every registry and pointer empty. */
    method CloseAll()
      modifies this
      ensures Valid()
      ensures playwright == None
      ensures browsers == map[] && contexts == map[] && pages == map[]
      ensures currentBrowser == None && currentContext == None && currentPage == None
    {
      browsers := map[];
      contexts := map[];
      pages := map[];
      playwright := None;
      currentBrowser := None;
      currentContext := None;
      currentPage := None;
    }
  }

  /** Browser ids come from the number of live browsers, so after a close a launch can hand out an
      id that is still in use, and the browser registered under it is replaced: launching two
      chromium browsers, closing the first and launching a third gives the third the id of the
      second, and only one browser stays registered. */
  method ReusedBrowserId() returns (second: string, third: string, registered: nat)
    ensures second == third == "chromium_1"
    ensures registered == 1
  {
    var manager := new BrowserManager();
    var driver, h0, h1, h2 := Handle(0), Handle(1), Handle(2), Handle(3);
    assert Lower("chromium") == "chromium";
    assert NatToString(0) == "0" && NatToString(1) == "1";
    var r0 := manager.LaunchBrowser(None, driver, h0);
    var r1 := manager.LaunchBrowser(Some("chromium"), driver, h1);
    assert r0.value == "chromium_0" && r1.value == "chromium_1";
    manager.CloseBrowser(Some("chromium_0"));
    assert manager.browsers == map["chromium_1" := h1];
    var r2 := manager.LaunchBrowser(Some("chromium"), driver, h2);
    second, third := r1.value, r2.value;
    assert manager.browsers == map["chromium_1" := h2];
    registered := |manager.browsers|;
  }

  /** Closing a browser that is not the current one leaves the current context pointing at a
      context that was removed with it; creating a page there then fails. */
  method DanglingCurrentContext() returns (err: Result<string, Error>)
    ensures err == Failure(UnknownContext("chromium_0_ctx_0"))
  {
    var manager := new BrowserManager();
    var driver := Handle(0);
    assert Lower("chromium") == "chromium";
    assert IsSupported("chromium");
    assert NatToString(0) == "0" && NatToString(1) == "1";
    assert BrowserId("chromium", 0) == "chromium_0" && BrowserId("chromium", 1) == "chromium_1";
    assert ContextId("chromium_0", 0) == "chromium_0_ctx_0";
    var r0 := manager.LaunchBrowser(Some("chromium"), driver, Handle(1));
    assert r0 == Success("chromium_0");
    var c0 := manager.CreateContext(None, Handle(2));
    assert c0 == Success("chromium_0_ctx_0");
    var r1 := manager.LaunchBrowser(Some("chromium"), driver, Handle(3));
    assert manager.currentContext == Some("chromium_0_ctx_0");
    assert manager.currentBrowser == Some("chromium_1");
    manager.CloseBrowser(Some("chromium_0"));
    assert "chromium_0" <= "chromium_0_ctx_0";
    assert manager.currentContext == Some("chromium_0_ctx_0");
    assert "chromium_0_ctx_0" !in manager.contexts;
    err := manager.CreatePage(None, Handle(4));
  }
}
