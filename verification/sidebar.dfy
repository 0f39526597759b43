/**
 * The navigation list of `src/components/Sidebar.jsx`: three fixed items,
 * then Profile and Settings for a signed-in user or the sign-in item for
 * everyone else.
 */
module Sidebar {
  import opened JsValues
  import opened BrowserStorage
  import App

  datatype MenuItem = MenuItem(to: string, caption: string)

  const MainItems := [
    MenuItem("/dashboard", "Dashboard"),
    MenuItem("/upload", "Upload Resume"),
    MenuItem("/reports", "Reports")]

  const UserItems := [MenuItem("/profile", "Profile"), MenuItem("/settings", "Settings")]

  const AuthItem := MenuItem("/", "Login / Register")

  /** `[...mainMenuItems, ...userMenuItems, ...authMenuItem]` for the stored email. */
  function MenuItems(email: Option<string>): (items: seq<MenuItem>)
    ensures |items| >= 3 && items[..3] == MainItems
  {
    var signedIn := Truthy(StoredValue(email));
    MainItems + (if signedIn then UserItems else []) + (if signedIn then [] else [AuthItem])
  }

  /** Signed in: five items ending in Profile and Settings; otherwise four ending in the sign-in item. */
  lemma MenuShape(email: Option<string>)
    ensures email.Some? && email.value != "" ==> MenuItems(email) == MainItems + UserItems
    ensures email.None? || email.value == "" ==> MenuItems(email) == MainItems + [AuthItem]
    ensures |MenuItems(email)| == if email.Some? && email.value != "" then 5 else 4
  {
  }

  /** The Profile and Settings items never appear together with the sign-in item. */
  lemma UserItemsExcludeAuthItem(email: Option<string>)
    ensures AuthItem in MenuItems(email) <==> !(UserItems[0] in MenuItems(email))
    ensures UserItems[0] in MenuItems(email) <==> UserItems[1] in MenuItems(email)
  {
    var items := MenuItems(email);
    if email.Some? && email.value != "" {
      assert items == MainItems + UserItems;
      assert AuthItem !in items by {
        forall i | 0 <= i < |items| ensures items[i] != AuthItem {
          assert items[i].to != "/";
        }
      }
    } else {
      assert items == MainItems + [AuthItem];
      forall i | 0 <= i < |items| ensures items[i] != UserItems[0] && items[i] != UserItems[1] {
        assert items[i].to != "/profile" && items[i].to != "/settings";
      }
    }
  }

  /** The `to` values are distinct, as their use as list keys requires. */
  lemma DistinctTargets(email: Option<string>)
    ensures forall i, j :: 0 <= i < j < |MenuItems(email)| ==> MenuItems(email)[i].to != MenuItems(email)[j].to
  {
  }

  /**
   * Signed in, every item's target renders its screen at once; signed out,
   * every target ends on the sign-in screen within one redirect.
   */
  lemma TargetsReachScreens(items: map<string, string>)
    ensures App.IsLoggedIn(items) ==>
      forall m :: m in MenuItems(Lookup(items, "email")) ==> App.Route(m.to, items).Render?
    ensures !App.IsLoggedIn(items) ==>
      forall m :: m in MenuItems(Lookup(items, "email")) ==> App.Resolve(m.to, items, 1) == Some(App.AuthScreen)
  {
    var menu := MenuItems(Lookup(items, "email"));
    forall m | m in menu
      ensures App.IsLoggedIn(items) ==> App.Route(m.to, items).Render?
      ensures !App.IsLoggedIn(items) ==> App.Resolve(m.to, items, 1) == Some(App.AuthScreen)
    {
      assert m.to in {"/dashboard", "/upload", "/reports", "/profile", "/settings", "/"};
    }
  }
}
