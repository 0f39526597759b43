/**
 * The account menu of `src/components/UserProfileMenu.jsx`: an avatar with
 * initials and a display name taken from the stored email, a drop-down that
 * opens and closes, and a logout that forgets the stored email.
 */
module UserProfileMenu {
  import opened JsValues
  import opened JsStrings
  import opened BrowserStorage
  import App
  import ProfileJs
  import ProfileJsx
  import Auth

  /** `email.split("@")[0]`. */
  function LocalPart(email: string): (local: string)
    ensures |local| <= |email| && local == email[..|local|]
    ensures '@' !in local
  {
    BeforeFirst(email, '@')
  }

  /**
   * `getInitials`: "U" without an email; otherwise the first two characters
   * of the local part upper-cased, or its first character when it is shorter.
   */
  function Initials(email: Option<string>): (r: string)
    ensures !ProfileJsx.Given(email) ==> r == "U"
    ensures ProfileJsx.Given(email) ==> |r| == if |LocalPart(email.value)| >= 2 then 2 else |LocalPart(email.value)|
    ensures ProfileJsx.Given(email) ==> forall i :: 0 <= i < |r| ==> r[i] == UpperChar(email.value[i])
  {
    if !ProfileJsx.Given(email) then "U"
    else
      var local := LocalPart(email.value);
      if |local| >= 2 then ToUpper(local[..2]) else ToUpper(CharAt0(local))
  }

  /** An email that starts with "@" has an empty local part, and the avatar shows no initials at all. */
  lemma EmptyLocalPartHasNoInitials(domain: string)
    ensures Initials(Some("@" + domain)) == ""
  {
    assert LocalPart("@" + domain) == "";
  }

  /** `getDisplayName`: "User" without an email; otherwise the capitalised local part, the same name `Profile.js` defaults to. */
  function DisplayName(email: Option<string>): (name: string)
    ensures !ProfileJsx.Given(email) ==> name == "User"
    ensures ProfileJsx.Given(email) ==> name == ProfileJs.DefaultDisplayName(email.value)
    ensures ProfileJsx.Given(email) ==> |name| == |LocalPart(email.value)|
  {
    if !ProfileJsx.Given(email) then "User"
    else
      var username := LocalPart(email.value);
      Capitalise(username)
  }

  /** The initials are the first one or two letters of the display name, upper-cased. */
  lemma InitialsPrefixDisplayName(email: string)
    requires email != "" && email[0] != '@'
    ensures Initials(Some(email))[0] == DisplayName(Some(email))[0]
    ensures |Initials(Some(email))| <= |DisplayName(Some(email))|
  {
    assert LocalPart(email) != "" by {
      assert email[0] != '@';
    }
  }

  /** The menu renders only for a stored, non-empty email: exactly when the route guard sees a session. */
  predicate MenuShown(items: map<string, string>)
  {
    ProfileJsx.Given(Lookup(items, "email"))
  }

  lemma MenuShownIffLoggedIn(items: map<string, string>)
    ensures MenuShown(items) <==> App.IsLoggedIn(items)
  {
    App.LoggedInIff(items);
  }

  /** What choosing a menu entry does besides closing the menu. */
  datatype Action = Navigate(to: string) | OpenWindow(url: string) | Logout

  datatype Entry = Item(caption: string, action: Action, danger: bool) | Divider

  const Entries := [
    Item("Profile", Navigate("/profile"), false),
    Item("Settings", Navigate("/settings"), false),
    Item("Resume History", Navigate("/reports"), false),
    Divider,
    Item("About", OpenWindow("https://github.com"), false),
    Item("Help / Support", OpenWindow("mailto:support@airesumeanalyzer.com"), false),
    Divider,
    Item("Logout", Logout, true)]

  /** Every entry that navigates leads to a screen a signed-in user sees at once. */
  lemma EntriesReachScreens(items: map<string, string>)
    requires App.IsLoggedIn(items)
    ensures forall e :: e in Entries && e.Item? && e.action.Navigate? ==> App.Route(e.action.to, items).Render?
  {
    forall e | e in Entries && e.Item? && e.action.Navigate?
      ensures App.Route(e.action.to, items).Render?
    {
      assert e.action.to in {"/profile", "/settings", "/reports"};
    }
  }

  /** Logout is the only dangerous entry, and the last one. */
  lemma LogoutIsLastAndOnlyDanger()
    ensures Entries[|Entries| - 1] == Item("Logout", Logout, true)
    ensures forall i :: 0 <= i < |Entries| - 1 ==> !(Entries[i].Item? && (Entries[i].danger || Entries[i].action.Logout?))
  {
  }

  /**
   * Logout removes the email and nothing else: the route guard sees no
   * session and sends "/dashboard" to "/", every other key, the stored user
   * record included, keeps its value.
   */
  lemma LogoutEndsSession(items: map<string, string>)
    ensures !App.IsLoggedIn(items - {"email"})
    ensures App.Route("/dashboard", items - {"email"}) == App.Redirect("/")
    ensures App.Route("/", items - {"email"}) == App.Render(App.AuthScreen)
    ensures forall k :: k in items && k != "email" ==> k in items - {"email"} && (items - {"email"})[k] == items[k]
  {
  }

  /**
   * Signing in and then out leaves the stored user record behind, but the
   * route guard, which reads only `email`, keeps the profile screen out of
   * reach.
   */
  lemma LoginThenLogout(items: map<string, string>, userJson: string, email: string)
    requires email != ""
    ensures var after := Auth.SessionItems(items, userJson, email) - {"email"};
      !App.IsLoggedIn(after) && Lookup(after, "user") == Some(userJson) &&
      App.Route("/profile", after) == App.Redirect("/")
  {
    var after := Auth.SessionItems(items, userJson, email) - {"email"};
    assert !App.IsLoggedIn(after);
    assert App.MatchProtected("/profile") == Some(App.ProfileScreen);
  }

  class MenuState {
    var isOpen: bool

    /** Closed on the first render. */
    constructor ()
      ensures !isOpen
    {
      isOpen := false;
    }

    /** The trigger button flips the drop-down. */
    method Toggle()
      modifies this
      ensures isOpen == !old(isOpen)
    {
      isOpen := !isOpen;
    }

    /**
     * A chosen entry closes the menu and then does its action: the router
     * moves, a window opens, or the logout forgets the stored email and goes
     * to "/".
     */
    method Choose(entry: Entry, store: Storage) returns (navigate: Option<string>, window: Option<string>)
      requires entry.Item?
      modifies this, store
      ensures !isOpen
      ensures entry.action.Navigate? ==> navigate == Some(entry.action.to) && window == None && store.items == old(store.items)
      ensures entry.action.OpenWindow? ==> navigate == None && window == Some(entry.action.url) && store.items == old(store.items)
      ensures entry.action.Logout? ==> navigate == Some("/") && window == None && store.items == old(store.items) - {"email"}
    {
      match entry.action {
        case Navigate(to) =>
          isOpen := false;
          navigate, window := Some(to), None;
        case OpenWindow(url) =>
          isOpen := false;
          navigate, window := None, Some(url);
        case Logout =>
          var to := HandleLogout(store);
          navigate, window := Some(to), None;
      }
    }

    /** `handleLogout`: the stored email is removed, the menu closes, and the router goes to "/". */
    method HandleLogout(store: Storage) returns (navigate: string)
      modifies this, store
      ensures store.items == old(store.items) - {"email"}
      ensures !isOpen && navigate == "/"
    {
      store.RemoveItem("email");
      isOpen := false;
      navigate := "/";
    }
  }
}
