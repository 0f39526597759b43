/**
 * The profile screen of `src/components/Profile.jsx`: the same form as
 * `Profile.js`, but the session email and the display name may come from a
 * stored user record, the name is the only validated field, a cancel keeps
 * the edits, and the report count is read from whatever the list call gave.
 */
module ProfileJsx {
  import opened JsValues
  import opened JsStrings
  import opened BrowserStorage
  import opened ReportList
  import ProfileJs

  type ProfileForm = ProfileJs.ProfileForm

  /** The fields read from the stored `user` record; a field that is missing or `null` is `None`. */
  datatype UserRecord = UserRecord(email: Option<string>, userName: Option<string>, name: Option<string>)

  /** A text read that counts as truthy: present and non-empty. */
  predicate Given(t: Option<string>)
  {
    t.Some? && t.value != ""
  }

  /** The index of the first given candidate, or `|cands|` when none is given. */
  function FirstGivenIndex(cands: seq<Option<string>>): (k: nat)
    ensures k <= |cands|
    ensures forall j :: 0 <= j < k ==> !Given(cands[j])
    ensures k < |cands| ==> Given(cands[k])
  {
    if cands == [] then 0
    else if Given(cands[0]) then 0
    else 1 + FirstGivenIndex(cands[1..])
  }

  /**
   * `a || b || ...` over texts, as far as truthiness goes: the first given
   * candidate, or `None` when none is given.
   */
  function FirstGiven(cands: seq<Option<string>>): (r: Option<string>)
    ensures r.None? <==> forall i :: 0 <= i < |cands| ==> !Given(cands[i])
    ensures r.Some? ==>
      Given(r) && exists i :: 0 <= i < |cands| && cands[i] == r && forall j :: 0 <= j < i ==> !Given(cands[j])
  {
    var k := FirstGivenIndex(cands);
    if k < |cands| then cands[k] else None
  }

  /** `storedUser?.email || localStorage.getItem("email")`, as far as the screen tells them apart. */
  function SessionEmail(user: Option<UserRecord>, items: map<string, string>): (e: Option<string>)
  {
    FirstGiven([if user.Some? then user.value.email else None, Lookup(items, "email")])
  }

  /** The record's email wins when given; otherwise the stored email, when given; otherwise there is none. */
  lemma SessionEmailPrecedence(user: Option<UserRecord>, items: map<string, string>)
    ensures user.Some? && Given(user.value.email) ==> SessionEmail(user, items) == user.value.email
    ensures !(user.Some? && Given(user.value.email)) && Given(Lookup(items, "email")) ==>
      SessionEmail(user, items) == Lookup(items, "email")
    ensures SessionEmail(user, items).None? <==>
      !(user.Some? && Given(user.value.email)) && !Given(Lookup(items, "email"))
  {
    var cands := [if user.Some? then user.value.email else None, Lookup(items, "email")];
    var k := FirstGivenIndex(cands);
    if k == 2 {
      assert !Given(cands[0]) && !Given(cands[1]);
    }
  }

  /** The mounted display name: `userName || name || getItem("displayName")`, else the capitalised local part. */
  function MountName(email: string, user: Option<UserRecord>, items: map<string, string>): (name: string)
  {
    var fromUser := FirstGiven([
      if user.Some? then user.value.userName else None,
      if user.Some? then user.value.name else None,
      Lookup(items, "displayName")]);
    if fromUser.Some? then fromUser.value else ProfileJs.DefaultDisplayName(email)
  }

  /** The precedence of the name sources, first to last, and the email fallback when none is given. */
  lemma MountNamePrecedence(email: string, user: Option<UserRecord>, items: map<string, string>)
    ensures user.Some? && Given(user.value.userName) ==> MountName(email, user, items) == user.value.userName.value
    ensures user.Some? && !Given(user.value.userName) && Given(user.value.name) ==>
      MountName(email, user, items) == user.value.name.value
    ensures (user.None? || (!Given(user.value.userName) && !Given(user.value.name))) && Given(Lookup(items, "displayName")) ==>
      MountName(email, user, items) == items["displayName"]
    ensures (user.None? || (!Given(user.value.userName) && !Given(user.value.name))) && !Given(Lookup(items, "displayName")) ==>
      MountName(email, user, items) == ProfileJs.DefaultDisplayName(email)
  {
    var cands := [
      if user.Some? then user.value.userName else None,
      if user.Some? then user.value.name else None,
      Lookup(items, "displayName")];
    var k := FirstGivenIndex(cands);
    assert MountName(email, user, items) == if k < 3 then cands[k].value else ProfileJs.DefaultDisplayName(email);
    if user.Some? && !Given(user.value.userName) && Given(user.value.name) {
      assert Given(cands[1]) && !Given(cands[0]);
      assert k == 1;
    }
    if (user.None? || (!Given(user.value.userName) && !Given(user.value.name))) && Given(Lookup(items, "displayName")) {
      assert !Given(cands[0]) && !Given(cands[1]) && Given(cands[2]);
      assert k == 2;
    }
  }

  /** The form the mount effect builds for a session email. */
  function MountForm(email: string, user: Option<UserRecord>, items: map<string, string>): (f: ProfileForm)
    ensures f.displayName == MountName(email, user, items) && f.email == email
    ensures f.phone == ProfileJs.StoredOr(items, "phone", "")
    ensures f.theme == ProfileJs.StoredOr(items, "theme", "light")
    ensures f.emailNotifications <==> Lookup(items, "emailNotifications") != Some("false")
  {
    ProfileJs.ProfileForm(MountName(email, user, items), email,
      ProfileJs.StoredOr(items, "phone", ""), ProfileJs.StoredOr(items, "theme", "light"),
      Lookup(items, "emailNotifications") != Some("false"))
  }

  /** Unlike `Profile.js`, a saved display name is shown again on the next mount when the user record names nobody. */
  lemma MountShowsSavedName(email: string, user: Option<UserRecord>, items: map<string, string>, saved: string)
    requires user.None? || (!Given(user.value.userName) && !Given(user.value.name))
    requires saved != ""
    ensures MountForm(email, user, items["displayName" := saved]).displayName == saved
  {
    MountNamePrecedence(email, user, items["displayName" := saved]);
  }

  const NameRequired := "Display name is required"

  /** The error object `validateForm` builds: only a blank name is refused. */
  function FormErrors(f: ProfileForm): (e: map<string, string>)
    ensures "displayName" in e <==> Trim(f.displayName) == ""
    ensures forall k :: k in e ==> k == "displayName" && e[k] == NameRequired
  {
    if Trim(f.displayName) == "" then map["displayName" := NameRequired] else map[]
  }

  /** `validateForm()`'s answer: no error keys. */
  predicate FormValid(f: ProfileForm)
  {
    FormErrors(f) == map[]
  }

  /** The form passes exactly when its name is not all white space. */
  lemma FormValidIff(f: ProfileForm)
    ensures FormValid(f) <==> !AllSpace(f.displayName)
  {
    TrimEmptyIff(f.displayName);
    if !FormValid(f) {
      assert "displayName" in FormErrors(f);
    }
  }

  /** Every form `Profile.js` accepts passes here too, and a one-letter name shows the rules differ. */
  lemma LaxerThanProfileJs(f: ProfileForm)
    ensures ProfileJs.FormValid(f) ==> FormValid(f)
    ensures f.displayName == "A" ==> FormValid(f) && !ProfileJs.FormValid(f)
  {
    ProfileJs.FormValidIff(f);
    if ProfileJs.FormValid(f) {
      assert Trim(f.displayName) != "";
      assert FormErrors(f) == map[];
    }
    if f.displayName == "A" {
      assert !IsJsSpace('A');
      TrimEmptyIff(f.displayName);
      assert Trim(f.displayName) != "";
      assert FormErrors(f) == map[];
      assert |Trim(f.displayName)| <= 1;
    }
  }

  /**
   * The storage writes of a successful save, in the order `handleSave` makes
   * them: name, theme, notifications, and the phone only when one was given.
   * The keys are distinct, so the storage ends as after a `Profile.js` save.
   */
  method WriteProfile(store: Storage, f: ProfileForm)
    modifies store
    ensures store.items == ProfileJs.SavedItems(old(store.items), f)
  {
    var notifications := if f.emailNotifications then "true" else "false";
    store.SetItem("displayName", f.displayName);
    store.SetItem("theme", f.theme);
    store.SetItem("emailNotifications", notifications);
    NameFirstSameStorage(old(store.items), f.displayName, f.theme, notifications);
    if f.phone != "" {
      store.SetItem("phone", f.phone);
    }
  }

  /** Writing the name before the theme and the notifications flag leaves the same storage as writing it after them. */
  lemma NameFirstSameStorage(items: map<string, string>, name: string, theme: string, notifications: string)
    ensures items["displayName" := name]["theme" := theme]["emailNotifications" := notifications]
         == items["theme" := theme]["emailNotifications" := notifications]["displayName" := name]
  {
    var a := items["theme" := theme];
    assert items["displayName" := name]["theme" := theme] == a["displayName" := name];
    assert a["displayName" := name]["emailNotifications" := notifications]
        == a["emailNotifications" := notifications]["displayName" := name];
  }

  /**
   * A save followed by a fresh mount gives the saved form back, as long as
   * the user record names nobody, the email is the form's own, the theme is
   * not empty, and the phone was given or never stored.
   */
  lemma SaveThenMount(items: map<string, string>, f: ProfileForm, user: Option<UserRecord>)
    requires FormValid(f) && f.theme != ""
    requires user.None? || (!Given(user.value.userName) && !Given(user.value.name))
    requires f.phone != "" || "phone" !in items || items["phone"] == ""
    ensures MountForm(f.email, user, ProfileJs.SavedItems(items, f)) == f
  {
    FormValidIff(f);
    var saved := ProfileJs.SavedItems(items, f);
    ProfileJs.SavedItemsValues(items, f);
    assert f.displayName != "";
    MountNamePrecedence(f.email, user, saved);
    var g := MountForm(f.email, user, saved);
    assert g.displayName == f.displayName;
    assert g.theme == f.theme;
    assert g.emailNotifications == f.emailNotifications;
    if f.phone == "" {
      ProfileJs.SavedItemsKeys(items, f, "phone");
    }
    assert g.phone == f.phone;
  }

  /**
   * `reports.length` for the value the list call left, `undefined` when it
   * has none. On `null` or `undefined` the read would throw; the screen never
   * holds either, since it starts with `[]` and stores only the always truthy
   * `res?.reports || res || []`.
   */
  function TotalResumes(reports: JsVal): (n: JsVal)
    requires !Nullish(reports)
    ensures reports.Arr? ==> n == Num(|reports.items|)
    ensures reports.Str? ==> n == Num(|reports.s|)
    ensures reports.Obj? ==> n == Get(reports, "length")
    ensures reports.Num? || reports.Bool? ==> n == Undef
  {
    match reports
    case Arr(xs) => Num(|xs|)
    case Str(s) => Num(|s|)
    case Obj(_) => Get(reports, "length")
    case _ => Undef
  }

  /** `totalResumes > 0`, for the numeric counts; any other count is not above zero. */
  predicate ShowsViewReports(total: JsVal)
  {
    total.Num? && total.n > 0
  }

  /**
   * A bare list from the server is counted, and offers "View Reports" exactly
   * when it is not empty; a failure object without `reports` or `length`
   * shows no count and no button.
   */
  lemma CountOfLoadedList(xs: seq<Report>, m: map<string, JsVal>)
    requires "reports" !in m || !Truthy(m["reports"])
    requires "length" !in m
    ensures TotalResumes(ReportsOrSelf(Arr(xs))) == Num(|xs|)
    ensures ShowsViewReports(TotalResumes(ReportsOrSelf(Arr(xs)))) <==> xs != []
    ensures TotalResumes(ReportsOrSelf(Obj(m))) == Undef
    ensures !ShowsViewReports(TotalResumes(ReportsOrSelf(Obj(m))))
  {
    ReportsOrSelfBareArray(xs);
    assert ReportsOrSelf(Obj(m)) == Obj(m);
  }

  class ProfileScreen {
    var form: ProfileForm
    var errors: map<string, string>
    var isEditing: bool
    var saving: bool
    var successMessage: string
    var reports: JsVal
    var reportsLoading: bool

    /** The state of the first render, before the mount effect. */
    constructor (email: Option<string>)
      ensures form == ProfileJs.ProfileForm("", if Given(email) then email.value else "", "", "light", true)
      ensures errors == map[] && !isEditing && !saving && successMessage == ""
      ensures reports == Arr([]) && reportsLoading
    {
      form := ProfileJs.ProfileForm("", if Given(email) then email.value else "", "", "light", true);
      errors, isEditing, saving, successMessage := map[], false, false, "";
      reports, reportsLoading := Arr([]), true;
    }

    /**
     * The mount effect: without a session email it navigates to "/";
     * otherwise it seeds the form and asks for the reports of that email.
     */
    method Mount(user: Option<UserRecord>, store: Storage) returns (navigate: Option<string>, request: Option<string>)
      modifies this`form
      ensures SessionEmail(user, store.items).None? ==> navigate == Some("/") && request == None && form == old(form)
      ensures SessionEmail(user, store.items).Some? ==>
        navigate == None && request == SessionEmail(user, store.items) &&
        form == MountForm(SessionEmail(user, store.items).value, user, store.items)
    {
      var email := SessionEmail(user, store.items);
      if email.None? {
        return Some("/"), None;
      }
      form := MountForm(email.value, user, store.items);
      navigate, request := None, email;
    }

    /** `loadResumeActivity` after the call: `result?.reports || result || []`, and loading ends. */
    method ReportsArrived(result: JsVal)
      modifies this`reports, this`reportsLoading
      ensures reports == ReportsOrSelf(result) && Truthy(reports)
      ensures !reportsLoading
    {
      reports := ReportsOrSelf(result);
      reportsLoading := false;
    }

    /** "Edit Profile". */
    method StartEditing()
      modifies this`isEditing
      ensures isEditing
    {
      isEditing := true;
    }

    /** An input's change: the field takes the value and nothing else changes, errors included. */
    method HandleInputChange(change: ProfileJs.FieldChange)
      requires !change.SetEmailNotifications?
      modifies this`form
      ensures form == ProfileJs.Apply(old(form), change)
    {
      form := ProfileJs.Apply(form, change);
    }

    /** "Cancel": edit mode ends and the edited form stays as it is. */
    method Cancel()
      modifies this`isEditing
      ensures !isEditing
    {
      isEditing := false;
    }

    /** `validateForm`: the errors become the new error object, and the form passes when it holds no key. */
    method ValidateForm() returns (valid: bool)
      modifies this`errors
      ensures errors == FormErrors(form)
      ensures valid <==> FormValid(form)
    {
      errors := FormErrors(form);
      valid := FormValid(form);
    }

    /** The end of a successful save: saving and edit mode end, and the success message shows. */
    method FinishSave()
      modifies this`saving, this`isEditing, this`successMessage
      ensures !saving && !isEditing && successMessage == "Profile updated successfully!"
    {
      saving := false;
      isEditing := false;
      successMessage := "Profile updated successfully!";
    }

    /**
     * `handleSave` up to its wait: the errors become the new error object;
     * an invalid form stops there, a valid one starts saving and is the form
     * the handler will write.
     */
    method StartSave() returns (sent: Option<ProfileForm>)
      modifies this`errors, this`saving
      ensures errors == FormErrors(form)
      ensures sent.Some? <==> FormValid(form)
      ensures sent.None? ==> saving == old(saving)
      ensures sent.Some? ==> sent.value == form && saving
    {
      var valid := ValidateForm();
      if !valid {
        return None;
      }
      saving := true;
      sent := Some(form);
    }

    /**
     * `handleSave` after its wait: `sent` is written to storage, saving and
     * edit mode end, and the success message shows.
     */
    method HandleSave(sent: ProfileForm, store: Storage)
      modifies this`successMessage, this`isEditing, this`saving, store
      ensures store.items == ProfileJs.SavedItems(old(store.items), sent)
      ensures successMessage == "Profile updated successfully!" && !isEditing && !saving
    {
      WriteProfile(store, sent);
      ghost var written := store.items;
      FinishSave();
      assert store.items == written;
    }
  }
}
