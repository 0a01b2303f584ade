/**
 * The option page (ydn.crm.OptionPageApp): pages registered by name, a main
 * menu and a content area that grow in lockstep, the tab switch, and the
 * login box.
 *
 * The menu is a list of items (link, label text, `selected` attribute, class name)
 * and the content area a list of divs (page name, shown). Status messages and
 * console errors are kept as lists; `onPageShow` calls are kept as the list of
 * pages they were made on.
 */
module OptionApp {
  import opened Js

  /** The pages the profile can ask for. */
  datatype Page = TrackingPanel | AboutPage(template: string) | SugarCrmPage

  datatype MenuItem = MenuItem(href: string, text: string, selectedAttr: bool, className: string)

  datatype ContentDiv = ContentDiv(name: string, shown: bool)

  /** The signed-in user's information (YdnApiUser). */
  datatype UserInfo = UserInfo(isLogin: bool, loginUrl: string, logoutUrl: string, email: string)

  // ---------------------------------------------------------------------------
  // Tab names

  /** The tab `showPanel_` looks for: '' means 'home'; then trimmed and lower-cased. */
  function NormalizeTabName(name: string): string {
    ToLower(Trim(if name == "" then "home" else name))
  }

  /** A trimmed, lower-cased, non-empty name is its own normal form. */
  lemma NormalizeNormalized(t: string)
    requires t != "" && Trimmed(t) && LowerCased(t)
    ensures NormalizeTabName(t) == t
  {
    TrimSpec(t);
    ToLowerSpec(t);
  }

  /**
   * The looked-up tab name is 'home' for '', has no white space at either end
   * and no upper-case letter, and normalising it again changes nothing unless
   * it is '' (a name made only of white space normalises to '', and '' to
   * 'home').
   */
  lemma NormalizeTabNameSpec(name: string)
    ensures name == "" ==> NormalizeTabName(name) == "home"
    ensures Trimmed(NormalizeTabName(name)) && LowerCased(NormalizeTabName(name))
    ensures NormalizeTabName(name) != "" ==>
      NormalizeTabName(NormalizeTabName(name)) == NormalizeTabName(name)
    ensures NormalizeTabName(name) == "" ==> NormalizeTabName(NormalizeTabName(name)) == "home"
  {
    var t := Trim(if name == "" then "home" else name);
    TrimSpec(if name == "" then "home" else name);
    ToLowerSpec(t);
    var r := ToLower(t);
    if name == "" {
      assert Trimmed("home") && LowerCased("home");
      NormalizeNormalized("home");
    }
    if r != "" {
      NormalizeNormalized(r);
    }
  }

  // ---------------------------------------------------------------------------
  // Page setup from the user's dashboard profile

  /** The page `processUserPageSetup` makes for a profile page name, if it knows the name. */
  function PageFor(pn: string): Option<Page> {
    if pn == "tracking" then Some(TrackingPanel)
    else if pn == "about-sugarcrm" then Some(AboutPage("about-template"))
    else if pn == "about-tracking" then Some(AboutPage("tracking-about-template"))
    else if pn == "sugarcrm" then Some(SugarCrmPage)
    else None
  }

  /** The tab name of the profile page at index `i`. */
  function TabName(i: nat, pn: string): string {
    if i == 0 then "home" else pn
  }

  /** The (tab name, page) pairs added for the first `n` profile page names, in order. */
  function Plan(pns: seq<string>, n: nat): seq<(string, Page)>
    requires n <= |pns|
    decreases n
  {
    if n == 0 then []
    else
      Plan(pns, n - 1)
      + match PageFor(pns[n - 1])
        case Some(p) => [(TabName(n - 1, pns[n - 1]), p)]
        case None => []
  }

  /** The console errors logged for the first `n` profile page names. */
  function SetupErrors(pns: seq<string>, n: nat): seq<string>
    requires n <= |pns|
    decreases n
  {
    if n == 0 then []
    else SetupErrors(pns, n - 1) + (if PageFor(pns[n - 1]).None? then ["Invalid page name: " + pns[n - 1]] else [])
  }

  /** Appending the outcome of profile entry `n - 1` to the plan and the errors so far. */
  lemma PlanUnfold(pns: seq<string>, n: nat)
    requires 0 < n <= |pns|
    ensures PageFor(pns[n - 1]).Some? ==>
      Plan(pns, n) == Plan(pns, n - 1) + [(TabName(n - 1, pns[n - 1]), PageFor(pns[n - 1]).value)]
      && SetupErrors(pns, n) == SetupErrors(pns, n - 1)
    ensures PageFor(pns[n - 1]).None? ==>
      Plan(pns, n) == Plan(pns, n - 1)
      && SetupErrors(pns, n) == SetupErrors(pns, n - 1) + ["Invalid page name: " + pns[n - 1]]
  {
  }

  /** Every planned page is the page its tab name stands for, except under 'home'. */
  lemma {:induction false} PlanKnown(pns: seq<string>, n: nat)
    requires n <= |pns|
    ensures forall k :: 0 <= k < |Plan(pns, n)| ==>
      Plan(pns, n)[k].0 == "home" || PageFor(Plan(pns, n)[k].0) == Some(Plan(pns, n)[k].1)
    decreases n
  {
    if n > 0 {
      PlanKnown(pns, n - 1);
      PlanUnfold(pns, n);
      var prev, plan := Plan(pns, n - 1), Plan(pns, n);
      assert forall k :: 0 <= k < |prev| ==> plan[k] == prev[k];
    }
  }

  /**
   * Only the first profile entry is named 'home', so 'home' is planned
   * exactly when the first entry is known, and then it comes first and holds
   * the page that first entry names.
   */
  lemma {:induction false} PlanHome(pns: seq<string>, n: nat)
    requires n <= |pns|
    ensures forall k :: 0 <= k < |Plan(pns, n)| && Plan(pns, n)[k].0 == "home" ==> k == 0
    ensures (|Plan(pns, n)| > 0 && Plan(pns, n)[0].0 == "home") <==> (n > 0 && PageFor(pns[0]).Some?)
    ensures |Plan(pns, n)| > 0 && Plan(pns, n)[0].0 == "home" ==> Plan(pns, n)[0].1 == PageFor(pns[0]).value
    decreases n
  {
    if n > 0 {
      PlanHome(pns, n - 1);
      PlanUnfold(pns, n);
      var prev, plan := Plan(pns, n - 1), Plan(pns, n);
      assert forall k :: 0 <= k < |prev| ==> plan[k] == prev[k];
      if n - 1 == 0 {
        assert prev == [];
      } else if PageFor(pns[n - 1]).Some? {
        assert plan[|prev|].0 == pns[n - 1] != "home";
      }
    }
  }

  /** Every profile entry either becomes a planned page or logs one error. */
  lemma {:induction false} PlanCount(pns: seq<string>, n: nat)
    requires n <= |pns|
    ensures |Plan(pns, n)| + |SetupErrors(pns, n)| == n
    decreases n
  {
    if n > 0 {
      PlanCount(pns, n - 1);
      PlanUnfold(pns, n);
    }
  }

  /** `pages_` after the first `n` profile page names: each known one is stored under its tab name, later ones winning. */
  function Registered(m: map<string, Page>, pns: seq<string>, n: nat): map<string, Page>
    requires n <= |pns|
    decreases n
  {
    if n == 0 then m
    else
      var r := Registered(m, pns, n - 1);
      match PageFor(pns[n - 1])
      case Some(p) => r[TabName(n - 1, pns[n - 1]) := p]
      case None => r
  }

  /** The menu items added for the first `n` profile page names; only the very first item of the menu gets `selected`. */
  function MenuFor(pns: seq<string>, n: nat, pageLabel: Page -> string, menuWasEmpty: bool): seq<MenuItem>
    requires n <= |pns|
    decreases n
  {
    if n == 0 then []
    else
      var r := MenuFor(pns, n - 1, pageLabel, menuWasEmpty);
      match PageFor(pns[n - 1])
      case Some(p) => r + [MenuItem("#" + TabName(n - 1, pns[n - 1]), pageLabel(p), menuWasEmpty && |r| == 0, "")]
      case None => r
  }

  /** The hidden content divs added for the first `n` profile page names. */
  function ContentFor(pns: seq<string>, n: nat): seq<ContentDiv>
    requires n <= |pns|
    decreases n
  {
    if n == 0 then []
    else
      var r := ContentFor(pns, n - 1);
      if PageFor(pns[n - 1]).Some? then r + [ContentDiv(TabName(n - 1, pns[n - 1]), false)] else r
  }

  /** The content divs set up for a profile are the planned tab names, in plan order, all hidden. */
  lemma {:induction false} ContentForSpec(pns: seq<string>, n: nat)
    requires n <= |pns|
    ensures |ContentFor(pns, n)| == |Plan(pns, n)|
    ensures forall k :: 0 <= k < |Plan(pns, n)| ==> ContentFor(pns, n)[k] == ContentDiv(Plan(pns, n)[k].0, false)
    decreases n
  {
    if n > 0 {
      ContentForSpec(pns, n - 1);
      var prev, plan, divs := Plan(pns, n - 1), Plan(pns, n), ContentFor(pns, n - 1);
      if PageFor(pns[n - 1]).Some? {
        var name := TabName(n - 1, pns[n - 1]);
        assert plan == prev + [(name, PageFor(pns[n - 1]).value)];
        assert ContentFor(pns, n) == divs + [ContentDiv(name, false)];
      } else {
        assert plan == prev && ContentFor(pns, n) == divs;
      }
    }
  }

  /**
   * The menu items set up for a profile are the planned pages, in plan
   * order, each linking to its tab and labelled by its page; only the first
   * item of an empty menu is selected.
   */
  lemma {:induction false} MenuForSpec(pns: seq<string>, n: nat, pageLabel: Page -> string, menuWasEmpty: bool)
    requires n <= |pns|
    ensures |MenuFor(pns, n, pageLabel, menuWasEmpty)| == |Plan(pns, n)|
    ensures forall k :: 0 <= k < |Plan(pns, n)| ==>
      MenuFor(pns, n, pageLabel, menuWasEmpty)[k]
      == MenuItem("#" + Plan(pns, n)[k].0, pageLabel(Plan(pns, n)[k].1), menuWasEmpty && k == 0, "")
    decreases n
  {
    if n > 0 {
      MenuForSpec(pns, n - 1, pageLabel, menuWasEmpty);
      var prev, plan, items := Plan(pns, n - 1), Plan(pns, n), MenuFor(pns, n - 1, pageLabel, menuWasEmpty);
      if PageFor(pns[n - 1]).Some? {
        var entry := (TabName(n - 1, pns[n - 1]), PageFor(pns[n - 1]).value);
        assert plan == prev + [entry];
        assert MenuFor(pns, n, pageLabel, menuWasEmpty)
          == items + [MenuItem("#" + entry.0, pageLabel(entry.1), menuWasEmpty && |items| == 0, "")];
      } else {
        assert plan == prev && MenuFor(pns, n, pageLabel, menuWasEmpty) == items;
      }
    }
  }

  /** A planned tab name is registered under the last page planned for it. */
  lemma {:induction false} RegisteredLast(m: map<string, Page>, pns: seq<string>, n: nat, k: nat)
    requires n <= |pns| && k < |Plan(pns, n)|
    requires forall j :: k < j < |Plan(pns, n)| ==> Plan(pns, n)[j].0 != Plan(pns, n)[k].0
    ensures Plan(pns, n)[k].0 in Registered(m, pns, n)
    ensures Registered(m, pns, n)[Plan(pns, n)[k].0] == Plan(pns, n)[k].1
    decreases n
  {
    var prev := Plan(pns, n - 1);
    var plan := Plan(pns, n);
    if PageFor(pns[n - 1]).Some? {
      assert plan == prev + [(TabName(n - 1, pns[n - 1]), PageFor(pns[n - 1]).value)];
      if k < |prev| {
        assert plan[|prev|].0 != plan[k].0;
        assert forall j :: k < j < |prev| ==> prev[j] == plan[j];
        RegisteredLast(m, pns, n - 1, k);
      }
    } else {
      assert plan == prev;
      assert Registered(m, pns, n) == Registered(m, pns, n - 1);
      RegisteredLast(m, pns, n - 1, k);
    }
  }

  /** The tab names of a plan. */
  function PlannedNames(plan: seq<(string, Page)>): set<string> {
    set k | 0 <= k < |plan| :: plan[k].0
  }

  /** The registered names are exactly the names registered before plus the planned tab names. */
  lemma {:induction false} RegisteredKeys(m: map<string, Page>, pns: seq<string>, n: nat)
    requires n <= |pns|
    ensures Registered(m, pns, n).Keys == m.Keys + PlannedNames(Plan(pns, n))
    decreases n
  {
    if n > 0 {
      RegisteredKeys(m, pns, n - 1);
      var prev := Plan(pns, n - 1);
      var plan := Plan(pns, n);
      if PageFor(pns[n - 1]).Some? {
        assert plan == prev + [(TabName(n - 1, pns[n - 1]), PageFor(pns[n - 1]).value)];
        assert PlannedNames(plan) == PlannedNames(prev) + {TabName(n - 1, pns[n - 1])} by {
          forall name | name in PlannedNames(plan) ensures name in PlannedNames(prev) + {TabName(n - 1, pns[n - 1])} {
            var k :| 0 <= k < |plan| && plan[k].0 == name;
            if k < |prev| { assert prev[k].0 == name; }
          }
          forall name | name in PlannedNames(prev) ensures name in PlannedNames(plan) {
            var k :| 0 <= k < |prev| && prev[k].0 == name;
            assert plan[k].0 == name;
          }
          assert plan[|prev|].0 == TabName(n - 1, pns[n - 1]);
        }
      } else {
        assert plan == prev;
        assert Registered(m, pns, n) == Registered(m, pns, n - 1);
      }
    }
  }

  /**
   * One more profile page name extends the pages, menu, content and console
   * errors set up so far by exactly what `processUserPageSetup` does for it:
   * a known name adds its page, item and div, an unknown one logs an error.
   */
  lemma SetupStep(pns: seq<string>, i: nat, pageLabel: Page -> string,
                  pages0: map<string, Page>, menu0: seq<MenuItem>, content0: seq<ContentDiv>, errors0: seq<string>,
                  pages: map<string, Page>, menu: seq<MenuItem>, content: seq<ContentDiv>, errors: seq<string>)
    requires i < |pns|
    requires pages == Registered(pages0, pns, i) && menu == menu0 + MenuFor(pns, i, pageLabel, |menu0| == 0)
    requires content == content0 + ContentFor(pns, i) && errors == errors0 + SetupErrors(pns, i)
    ensures PageFor(pns[i]).Some? ==>
      var name, page := TabName(i, pns[i]), PageFor(pns[i]).value;
      pages[name := page] == Registered(pages0, pns, i + 1)
      && menu + [MenuItem("#" + name, pageLabel(page), |menu| == 0, "")] == menu0 + MenuFor(pns, i + 1, pageLabel, |menu0| == 0)
      && content + [ContentDiv(name, false)] == content0 + ContentFor(pns, i + 1)
      && errors == errors0 + SetupErrors(pns, i + 1)
    ensures PageFor(pns[i]).None? ==>
      pages == Registered(pages0, pns, i + 1)
      && menu == menu0 + MenuFor(pns, i + 1, pageLabel, |menu0| == 0)
      && content == content0 + ContentFor(pns, i + 1)
      && errors + ["Invalid page name: " + pns[i]] == errors0 + SetupErrors(pns, i + 1)
  {
    var addedMenu := MenuFor(pns, i, pageLabel, |menu0| == 0);
    var addedContent := ContentFor(pns, i);
    var addedErrors := SetupErrors(pns, i);
    if PageFor(pns[i]).Some? {
      var name, page := TabName(i, pns[i]), PageFor(pns[i]).value;
      var item := MenuItem("#" + name, pageLabel(page), |menu0| == 0 && |addedMenu| == 0, "");
      assert MenuFor(pns, i + 1, pageLabel, |menu0| == 0) == addedMenu + [item];
      assert (menu0 + addedMenu) + [item] == menu0 + (addedMenu + [item]);
      assert (content0 + addedContent) + [ContentDiv(name, false)] == content0 + (addedContent + [ContentDiv(name, false)]);
    } else {
      var error := "Invalid page name: " + pns[i];
      assert (errors0 + addedErrors) + [error] == errors0 + (addedErrors + [error]);
    }
  }

  // ---------------------------------------------------------------------------
  // Tab lookup

  /** Reference definition of the tab search: the highest index whose div has `name`, or -1. */
  function LastIndexOf(content: seq<ContentDiv>, name: string): int
    decreases |content|
  {
    if content == [] then -1
    else if content[|content| - 1].name == name then |content| - 1
    else LastIndexOf(content[..|content| - 1], name)
  }

  /** -1 means no div has the name; otherwise the index holds it and no later div does. */
  lemma {:induction false} LastIndexOfSpec(content: seq<ContentDiv>, name: string)
    ensures -1 <= LastIndexOf(content, name) < |content|
    ensures LastIndexOf(content, name) == -1 <==> forall i :: 0 <= i < |content| ==> content[i].name != name
    ensures LastIndexOf(content, name) >= 0 ==>
      content[LastIndexOf(content, name)].name == name
      && forall j :: LastIndexOf(content, name) < j < |content| ==> content[j].name != name
    decreases |content|
  {
    if content != [] && content[|content| - 1].name != name {
      var prefix := content[..|content| - 1];
      LastIndexOfSpec(prefix, name);
      assert forall i :: 0 <= i < |prefix| ==> prefix[i] == content[i];
    }
  }

  class OptionPageApp {
    var pages: map<string, Page>       // pages_
    var menu: seq<MenuItem>            // children of #main-menu
    var content: seq<ContentDiv>       // children of #app-content
    var statuses: seq<string>          // messages posted to the status bar
    var consoleErrors: seq<string>     // window.console.error
    var pageShows: seq<Page>           // pages whose onPageShow was called, in call order
    var loginHref: string              // #user-login href
    var loginText: string              // #user-login text
    var loginShown: bool               // #user-login shown
    var userName: string               // #user-name text
    var menuShown: bool                // #main-menu shown
    var contentShown: bool             // #app-content shown

    /** The menu and the content area grow in lockstep, and every content div names a registered page. */
    ghost predicate Valid()
      reads this
    {
      |menu| == |content| && forall i :: 0 <= i < |content| ==> content[i].name in pages
    }

    constructor ()
      ensures Valid()
      ensures pages == map[] && menu == [] && content == [] && statuses == [] && pageShows == []
    {
      pages := map[];
      menu := [];
      content := [];
      statuses := [];
      consoleErrors := [];
      pageShows := [];
      loginHref := "";
      loginText := "";
      loginShown := true;
      userName := "";
      menuShown := true;
      contentShown := true;
    }

    /**
     * `addPage`: the page is stored under its name, and one menu item and one
     * hidden content div are appended; the item is `selected` only when the
     * menu was empty.
     */
    method AddPage(name: string, text: string, page: Page)
      requires Valid()
      modifies this`pages, this`menu, this`content
      ensures Valid()
      ensures pages == old(pages)[name := page]
      ensures menu == old(menu) + [MenuItem("#" + name, text, |old(menu)| == 0, "")]
      ensures content == old(content) + [ContentDiv(name, false)]
    {
      pages := pages[name := page];
      var selectedAttr := |menu| == 0;
      menu := menu + [MenuItem("#" + name, text, selectedAttr, "")];
      content := content + [ContentDiv(name, false)];
    }

    /**
     * `updateUserInfo_`: a null user changes nothing. Logged in, the button
     * reads 'logout' and links to the logout URL, the e-mail is shown and the
     * menu and content are shown; otherwise the button reads 'login', links to
     * the login URL and is shown, the name is cleared and the menu and content
     * are hidden.
     */
    method UpdateUserInfo(info: Option<UserInfo>)
      modifies this`loginHref, this`loginText, this`loginShown, this`userName,
               this`menuShown, this`contentShown
      ensures info.None? ==>
        loginHref == old(loginHref) && loginText == old(loginText) && loginShown == old(loginShown)
        && userName == old(userName) && menuShown == old(menuShown) && contentShown == old(contentShown)
      ensures info.Some? && info.value.isLogin ==>
        loginHref == info.value.logoutUrl && loginText == "logout" && loginShown == old(loginShown)
        && userName == info.value.email && menuShown && contentShown
      ensures info.Some? && !info.value.isLogin ==>
        loginHref == info.value.loginUrl && loginText == "login" && loginShown
        && userName == "" && !menuShown && !contentShown
    {
      if info.Some? {
        var user := info.value;
        if user.isLogin {
          loginHref := user.logoutUrl;
          loginText := "logout";
          userName := user.email;
          menuShown := true;
          contentShown := true;
        } else {
          loginHref := user.loginUrl;
          loginText := "login";
          loginShown := true;
          userName := "";
          menuShown := false;
          contentShown := false;
        }
      }
    }

    /**
     * `processUserPageSetup`: each known profile page name adds its page
     * (named 'home' at index 0), each unknown one logs a console error.
     * `pageLabel` stands for the pages' `toString`.
     */
    method ProcessUserPageSetup(profilePages: seq<string>, pageLabel: Page -> string)
      requires Valid()
      modifies this`pages, this`menu, this`content, this`consoleErrors
      ensures Valid()
      ensures pages == Registered(old(pages), profilePages, |profilePages|)
      ensures menu == old(menu) + MenuFor(profilePages, |profilePages|, pageLabel, |old(menu)| == 0)
      ensures content == old(content) + ContentFor(profilePages, |profilePages|)
      ensures consoleErrors == old(consoleErrors) + SetupErrors(profilePages, |profilePages|)
    {
      ghost var pages0, menu0, content0, errors0 := pages, menu, content, consoleErrors;
      var i := 0;
      while i < |profilePages|
        invariant 0 <= i <= |profilePages|
        invariant Valid()
        invariant pages == Registered(pages0, profilePages, i)
        invariant menu == menu0 + MenuFor(profilePages, i, pageLabel, |menu0| == 0)
        invariant content == content0 + ContentFor(profilePages, i)
        invariant consoleErrors == errors0 + SetupErrors(profilePages, i)
      {
        var pn := profilePages[i];
        var name := if i == 0 then "home" else pn;
        var page := PageFor(pn);
        SetupStep(profilePages, i, pageLabel, pages0, menu0, content0, errors0, pages, menu, content, consoleErrors);
        if page.Some? {
          AddPage(name, pageLabel(page.value), page.value);
        } else {
          consoleErrors := consoleErrors + ["Invalid page name: " + pn];
        }
        i := i + 1;
      }
    }

    /**
     * `showPanel_`: looks for the normalised tab name from the last content
     * div backwards. Not found: the status 'Invalid tab name: <name>' is
     * posted and nothing else changes. Found at index k: only div k is shown,
     * only menu item k has class 'selected', and `onPageShow` is called once,
     * on the page registered under the name.
     */
    method ShowPanel(name: string)
      requires Valid()
      modifies this`menu, this`content, this`statuses, this`pageShows
      ensures Valid() && pages == old(pages)
      ensures LastIndexOf(old(content), NormalizeTabName(name)) == -1 ==>
        statuses == old(statuses) + ["Invalid tab name: " + NormalizeTabName(name)]
        && menu == old(menu) && content == old(content) && pageShows == old(pageShows)
      ensures LastIndexOf(old(content), NormalizeTabName(name)) >= 0 ==>
        var k := LastIndexOf(old(content), NormalizeTabName(name));
        NormalizeTabName(name) in pages
        && statuses == old(statuses) && |content| == |old(content)| && |menu| == |old(menu)|
        && (forall j :: 0 <= j < |content| ==>
              content[j] == ContentDiv(old(content)[j].name, j == k)
              && menu[j] == old(menu)[j].(className := if j == k then "selected" else ""))
        && pageShows == old(pageShows) + [pages[NormalizeTabName(name)]]
    {
      var tab := NormalizeTabName(name);
      LastIndexOfSpec(content, tab);
      var selectedIndex := -1;
      var i := |content| - 1;
      while i >= 0
        invariant -1 <= i < |content|
        invariant forall j :: i < j < |content| ==> content[j].name != tab
      {
        if content[i].name == tab {
          selectedIndex := i;
          break;
        }
        i := i - 1;
      }
      if selectedIndex == -1 {
        statuses := statuses + ["Invalid tab name: " + tab];
        return;
      }
      assert selectedIndex == LastIndexOf(content, tab);
      SelectPanel(selectedIndex, tab);
    }

    /**
     * The second loop of `showPanel_`: from the last div backwards, only div
     * k is shown and only menu item k gets class 'selected', and the page
     * registered under the tab name has `onPageShow` called when k is reached.
     */
    method SelectPanel(k: nat, tab: string)
      requires Valid() && k < |content| && tab in pages
      modifies this`menu, this`content, this`pageShows
      ensures Valid() && |content| == |old(content)| && |menu| == |old(menu)|
      ensures forall j :: 0 <= j < |content| ==>
        content[j] == ContentDiv(old(content)[j].name, j == k)
        && menu[j] == old(menu)[j].(className := if j == k then "selected" else "")
      ensures pageShows == old(pageShows) + [pages[tab]]
    {
      var i := |content| - 1;
      while i >= 0
        invariant -1 <= i < |content| && |menu| == |content| && |content| == |old(content)|
        invariant forall j :: 0 <= j <= i ==> menu[j] == old(menu)[j] && content[j] == old(content)[j]
        invariant forall j :: i < j < |content| ==>
          content[j] == ContentDiv(old(content)[j].name, j == k)
          && menu[j] == old(menu)[j].(className := if j == k then "selected" else "")
        invariant pageShows == old(pageShows) + (if i < k then [pages[tab]] else [])
      {
        var selected := k == i;
        if selected {
          pageShows := pageShows + [pages[tab]];
        }
        menu := menu[i := menu[i].(className := if selected then "selected" else "")];
        content := content[i := content[i].(shown := selected)];
        i := i - 1;
      }
    }
  }
}
