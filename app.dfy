/** The application shell (src/App.tsx): the navigation menu and its visibility rule, the
    guarded routes, and the user dropdown's action dispatch. */
module App {
  import opened Wrappers

  /** `keycloak.authenticated` is `boolean | undefined`; only `true` is truthy. */
  predicate Authenticated(authenticated: Option<bool>)
  {
    authenticated == Some(true)
  }

  /** A navigation entry; `key` is the translated label. */
  datatype MenuItem = MenuItem(key: string, route: string, restricted: bool)

  /** `menuItems` (App.tsx:57-73), given the three translated labels. */
  function MenuItems(home: string, counter: string, users: string): (items: seq<MenuItem>)
    ensures |items| == 3
    ensures items[0].route == "/" && !items[0].restricted
    ensures items[1].route == "/counter" && items[1].restricted
    ensures items[2].route == "/users" && items[2].restricted
  {
    [MenuItem(home, "/", false), MenuItem(counter, "/counter", true), MenuItem(users, "/users", true)]
  }

  /** An item is shown when it is unrestricted or the user is authenticated. */
  predicate Shown(item: MenuItem, authenticated: Option<bool>)
  {
    !item.restricted || Authenticated(authenticated)
  }

  /** The filter at App.tsx:113-114. */
  function VisibleItems(items: seq<MenuItem>, authenticated: Option<bool>): (r: seq<MenuItem>)
    ensures forall x :: x in r <==> x in items && Shown(x, authenticated)
    ensures |r| <= |items|
  {
    if |items| == 0 then []
    else if Shown(items[0], authenticated) then [items[0]] + VisibleItems(items[1..], authenticated)
    else VisibleItems(items[1..], authenticated)
  }

  /** The filter keeps the original order: it works on each part of a list separately. */
  lemma {:induction false} VisibleItemsAppend(a: seq<MenuItem>, b: seq<MenuItem>, authenticated: Option<bool>)
    ensures VisibleItems(a + b, authenticated) == VisibleItems(a, authenticated) + VisibleItems(b, authenticated)
  {
    if |a| == 0 {
      assert a + b == b;
    } else {
      assert (a + b)[0] == a[0] && (a + b)[1..] == a[1..] + b;
      VisibleItemsAppend(a[1..], b, authenticated);
    }
  }

  /** Signed in, the whole menu shows in order; otherwise only the home entry. */
  lemma MenuByAuthentication(home: string, counter: string, users: string, authenticated: Option<bool>)
    ensures Authenticated(authenticated) ==> VisibleItems(MenuItems(home, counter, users), authenticated) == MenuItems(home, counter, users)
    ensures !Authenticated(authenticated) ==> VisibleItems(MenuItems(home, counter, users), authenticated) == [MenuItem(home, "/", false)]
  {
    var items := MenuItems(home, counter, users);
    assert items[1..][1..] == [items[2]] && items[2..][1..] == [];
    assert VisibleItems(items[2..], authenticated) == (if Authenticated(authenticated) then [items[2]] else []);
    assert VisibleItems(items[1..], authenticated) == (if Authenticated(authenticated) then [items[1], items[2]] else []);
  }

  /** What a guarded route renders. */
  datatype Guarded<T> = Children(content: T) | Redirect(to: string)

  /** `ProtectedRoute` (App.tsx:24-29): the children when `predicate` is truthy, else a
      redirect to `redirectPath`, `'/'` when not given. */
  function ProtectedRoute<T>(allowed: bool, redirectPath: Option<string>, children: T): (g: Guarded<T>)
    ensures g.Children? <==> allowed
    ensures g.Children? ==> g.content == children
    ensures g.Redirect? ==> g.to == redirectPath.GetOr("/")
  {
    if !allowed then Redirect(redirectPath.GetOr("/")) else Children(children)
  }

  /** The pages the shell can show. */
  datatype Screen = LoadingScreen | HomePage | UnauthorizedPage | CounterPage | UsersPage | ErrorPage | Navigate(to: string)

  /** The screen for a location (App.tsx:95-97, 146-166): only the loading screen until the
      auth client is initialised; `/counter` and `/users` are guarded and send a signed-out
      user to `/unauthorized`; any other path shows the error page. */
  function Resolve(initialized: bool, authenticated: Option<bool>, path: string): (s: Screen)
    ensures !initialized <==> s == LoadingScreen
    ensures initialized && (path == "/counter" || path == "/users") && !Authenticated(authenticated) ==> s == Navigate("/unauthorized")
    ensures initialized && path == "/users" && Authenticated(authenticated) ==> s == UsersPage
    ensures initialized && path == "/counter" && Authenticated(authenticated) ==> s == CounterPage
    ensures initialized && path !in {"/", "/unauthorized", "/counter", "/users"} ==> s == ErrorPage
  {
    if !initialized then LoadingScreen
    else if path == "/" then HomePage
    else if path == "/unauthorized" then UnauthorizedPage
    else if path == "/counter" then AsScreen(ProtectedRoute(Authenticated(authenticated), Some("/unauthorized"), CounterPage))
    else if path == "/users" then AsScreen(ProtectedRoute(Authenticated(authenticated), Some("/unauthorized"), UsersPage))
    else ErrorPage
  }

  /** A guarded route as a screen. */
  function AsScreen(g: Guarded<Screen>): Screen
  {
    if g.Children? then g.content else Navigate(g.to)
  }

  /** A guarded page is reachable exactly when signed in; the home and unauthorized pages
      always are. */
  lemma GuardedReachable(authenticated: Option<bool>)
    ensures Resolve(true, authenticated, "/users") == UsersPage <==> Authenticated(authenticated)
    ensures Resolve(true, authenticated, "/counter") == CounterPage <==> Authenticated(authenticated)
    ensures Resolve(true, authenticated, "/") == HomePage
    ensures Resolve(true, authenticated, "/unauthorized") == UnauthorizedPage
  {
  }

  /** An effect of the dropdown handler. */
  datatype Effect = Log(message: string) | SetLanguage(lang: string)

  /** The handler's effects, and whether it throws. What it throws is not modelled: the
      default branch calls the component `Errors` (src/pages/error/errors.tsx:4-5) from
      an event handler, so its hook call fails before any value is built. */
  datatype Dispatch = Dispatch(effects: seq<Effect>, throws: bool)

  /** `handleUserDropdownSelect` (App.tsx:75-93): log the selection, then act on it. */
  function HandleUserDropdownSelect(item: string): (d: Dispatch)
    ensures |d.effects| >= 1 && d.effects[0] == Log("User dropdown change: " + item)
    ensures d.throws <==> item !in {"profile", "settings", "lang/english", "lang/polish"}
    ensures d.throws ==> |d.effects| == 1
    ensures item == "lang/english" ==> d.effects == [d.effects[0], SetLanguage("en")]
    ensures item == "lang/polish" ==> d.effects == [d.effects[0], SetLanguage("pl")]
    ensures item in {"profile", "settings"} ==> |d.effects| == 2 && d.effects[1].Log?
  {
    var first := Log("User dropdown change: " + item);
    if item == "profile" then Dispatch([first, Log("Profile")], false)
    else if item == "settings" then Dispatch([first, Log("Settings")], false)
    else if item == "lang/english" then Dispatch([first, SetLanguage("en")], false)
    else if item == "lang/polish" then Dispatch([first, SetLanguage("pl")], false)
    else Dispatch([first], true)
  }

  /** The values the user dropdown (src/components/app/user-dropdown-menu.tsx:39-88)
      hands to the handler. */
  const DropdownSelections: seq<string> := ["profile", "settings", "lang/english", "lang/polish"]

  /** Every selection the dropdown can make is handled, so the handler never throws from
      the menu. */
  lemma DropdownNeverThrows(i: nat)
    requires i < |DropdownSelections|
    ensures !HandleUserDropdownSelect(DropdownSelections[i]).throws
  {
  }

  /** Only the two language actions change the language, and never both ways. */
  lemma LanguageOnlyFromLangActions(item: string, lang: string)
    ensures SetLanguage(lang) in HandleUserDropdownSelect(item).effects <==>
      (item == "lang/english" && lang == "en") || (item == "lang/polish" && lang == "pl")
  {
  }
}
