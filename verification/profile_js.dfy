/**
 * The profile screen of `src/components/Profile.js`: a form seeded from the
 * session email and browser storage, validated before it is saved back to
 * storage, an avatar with initials, and a report count loaded like the
 * status-gated dashboard.
 */
module ProfileJs {
  import opened JsValues
  import opened JsStrings
  import opened BrowserStorage
  import opened ReportList

  /** The profile form. */
  datatype ProfileForm = ProfileForm(
    displayName: string,
    email: string,
    phone: string,
    theme: string,
    emailNotifications: bool)

  /** An edit of one form field, as the inputs send it. */
  datatype FieldChange =
    | SetDisplayName(name: string)
    | SetPhone(phone: string)
    | SetTheme(theme: string)
    | SetEmailNotifications(on: bool)

  /** The key of the edited field in the form and in the error object. */
  function FieldKey(c: FieldChange): string
  {
    match c
    case SetDisplayName(_) => "displayName"
    case SetPhone(_) => "phone"
    case SetTheme(_) => "theme"
    case SetEmailNotifications(_) => "emailNotifications"
  }

  /** `{...prev, [field]: value}`: the named field takes the value and the others are kept. */
  function Apply(f: ProfileForm, c: FieldChange): (g: ProfileForm)
    ensures g.email == f.email
    ensures c.SetDisplayName? ==> g == f.(displayName := c.name)
    ensures c.SetPhone? ==> g == f.(phone := c.phone)
    ensures c.SetTheme? ==> g == f.(theme := c.theme)
    ensures c.SetEmailNotifications? ==> g == f.(emailNotifications := c.on)
  {
    match c
    case SetDisplayName(n) => f.(displayName := n)
    case SetPhone(p) => f.(phone := p)
    case SetTheme(t) => f.(theme := t)
    case SetEmailNotifications(b) => f.(emailNotifications := b)
  }

  /** The local part of an email with its first character upper-cased. */
  function DefaultDisplayName(email: string): (name: string)
    ensures |name| == |BeforeFirst(email, '@')|
    ensures '@' !in email ==> |name| == |email|
    ensures name != "" ==> name[0] == UpperChar(email[0]) && name[1..] == BeforeFirst(email, '@')[1..]
  {
    Capitalise(BeforeFirst(email, '@'))
  }

  /** Whatever the local part, the default name keeps it apart from the first letter, and holds no "@". */
  lemma DefaultDisplayNameHasNoAt(email: string)
    requires email != "" && email[0] != '@'
    ensures '@' !in DefaultDisplayName(email)[1..]
  {
  }

  /** A `getItem` that falls back when the key is missing or empty: `getItem(key) || fallback`. */
  function StoredOr(items: map<string, string>, key: string, fallback: string): (s: string)
    ensures key in items && items[key] != "" ==> s == items[key]
    ensures !(key in items && items[key] != "") ==> s == fallback
  {
    var v := Lookup(items, key);
    if v.Some? && v.value != "" then v.value else fallback
  }

  /** The form the mount effect builds: the name always comes from the email, never from storage. */
  function MountForm(email: string, items: map<string, string>): (f: ProfileForm)
    ensures f.displayName == DefaultDisplayName(email) && f.email == email && f.phone == ""
    ensures f.theme == StoredOr(items, "theme", "light")
    ensures f.emailNotifications <==> Lookup(items, "emailNotifications") != Some("false")
  {
    ProfileForm(DefaultDisplayName(email), email, "", StoredOr(items, "theme", "light"),
      Lookup(items, "emailNotifications") != Some("false"))
  }

  /** The form `handleCancel` restores: name and phone now come from storage when present. */
  function CancelForm(email: string, items: map<string, string>): (f: ProfileForm)
    ensures f.displayName == StoredOr(items, "displayName", DefaultDisplayName(email))
    ensures f.email == email && f.phone == StoredOr(items, "phone", "")
    ensures f.theme == StoredOr(items, "theme", "light")
    ensures f.emailNotifications <==> Lookup(items, "emailNotifications") != Some("false")
  {
    ProfileForm(StoredOr(items, "displayName", DefaultDisplayName(email)), email,
      StoredOr(items, "phone", ""), StoredOr(items, "theme", "light"),
      Lookup(items, "emailNotifications") != Some("false"))
  }

  /** The mount ignores a saved display name that a cancel would restore. */
  lemma MountIgnoresSavedName(email: string, items: map<string, string>, saved: string)
    requires saved != "" && saved != DefaultDisplayName(email)
    ensures MountForm(email, items["displayName" := saved]).displayName != saved
    ensures CancelForm(email, items["displayName" := saved]).displayName == saved
  {
  }

  /**
   * `(a + b).toUpperCase()` for two one-character reads: `undefined` prints
   * as "undefined" next to a character, but `undefined + undefined` is the
   * number NaN, which has no `toUpperCase`, so the call throws (`None`).
   */
  function UpperPlusChars(a: Option<char>, b: Option<char>): (r: Option<string>)
    ensures r.None? <==> a.None? && b.None?
  {
    match (a, b)
    case (Some(x), Some(y)) => Some(ToUpper([x, y]))
    case (Some(x), None) => Some(ToUpper([x] + "undefined"))
    case (None, Some(y)) => Some(ToUpper("undefined" + [y]))
    case (None, None) => None
  }

  /** `s[0]`: the first character, or `undefined` for the empty string. */
  function Index0(s: string): (c: Option<char>)
    ensures c.Some? <==> s != ""
    ensures c.Some? ==> c.value == s[0]
  {
    if s == "" then None else Some(s[0])
  }

  /** The first two parts of `name.split(" ")`, when there are at least two. */
  function FirstTwoParts(name: string): (parts: (string, string))
    requires ' ' in name
    ensures |parts.0| < |name| && name[|parts.0|] == ' '
    ensures name == parts.0 + " " + name[|parts.0| + 1..]
    ensures ' ' !in parts.0 && ' ' !in parts.1
    ensures parts.1 == BeforeFirst(name[|parts.0| + 1..], ' ')
  {
    var p0 := BeforeFirst(name, ' ');
    (p0, BeforeFirst(name[|p0| + 1..], ' '))
  }

  /**
   * `getInitials` as written: "U" for an empty name; with a space, the first
   * characters of the first two parts, where an empty part contributes
   * `undefined`; otherwise the first two characters. Upper-cased. `None` is
   * the TypeError thrown when both parts are empty, that is when the name
   * starts with a space that is followed by another space or by nothing.
   */
  function Initials(name: string): (r: Option<string>)
    ensures name == "" ==> r == Some("U")
    ensures name != "" && ' ' !in name ==> r == Some(ToUpper(Prefix(name, 2)))
    ensures r.None? <==> name != "" && name[0] == ' ' && (|name| == 1 || name[1] == ' ')
    ensures ' ' in name && name[0] != ' ' ==> r.Some? && |r.value| >= 2 && r.value[0] == UpperChar(name[0])
  {
    if name == "" then Some("U")
    else if ' ' in name then
      var parts := FirstTwoParts(name);
      var r := UpperPlusChars(Index0(parts.0), Index0(parts.1));
      assert r.None? <==> name[0] == ' ' && (|name| == 1 || name[1] == ' ') by {
        if name[0] == ' ' {
          assert parts.0 == "";
          assert name[1..] == name[|parts.0| + 1..];
        } else {
          assert parts.0 != "";
        }
      }
      r
    else Some(ToUpper(Prefix(name, 2)))
  }

  /**
   * As written: a name made of a space alone, or starting with two spaces,
   * has two empty parts, and `getInitials` throws instead of returning.
   */
  lemma InitialsOfLeadingSpacesThrow(rest: string)
    ensures Initials(" ").None?
    ensures Initials("  " + rest).None?
  {
  }

  /**
   * A name of two or more parts whose first two parts are not empty gives
   * the upper-cased first letter of each of those two parts: "Ann Lee Smith"
   * gives "AL".
   */
  lemma InitialsOfTwoWords(first: string, rest: string)
    requires first != "" && ' ' !in first && rest != "" && rest[0] != ' '
    ensures Initials(first + " " + rest) == Some([UpperChar(first[0]), UpperChar(rest[0])])
  {
    var name := first + " " + rest;
    assert name[|first|] == ' ';
    assert ' ' in name;
    var parts := FirstTwoParts(name);
    BeforeFirstOfJoin(first, rest);
    assert name[|first| + 1..] == rest;
    assert parts.0 == first && parts.1 == BeforeFirst(rest, ' ');
    assert parts.1 != "" && parts.1[0] == rest[0];
    assert Index0(parts.0) == Some(first[0]) && Index0(parts.1) == Some(rest[0]);
    var r := ToUpper([first[0], rest[0]]);
    assert r == [UpperChar(first[0]), UpperChar(rest[0])];
  }

  /**
   * A name that starts with a single space has an empty first part, which
   * contributes `undefined`: " bo" gives "UNDEFINEDB".
   */
  lemma InitialsOfLeadingSpace(w: string)
    requires w != "" && w[0] != ' '
    ensures Initials(" " + w) == Some("UNDEFINED" + [UpperChar(w[0])])
  {
    var name := " " + w;
    assert name[0] == ' ' && name[1] == w[0];
    var parts := FirstTwoParts(name);
    assert parts.0 == "";
    assert name[1..] == w;
    assert parts.1 != "" && parts.1[0] == w[0];
    assert Initials(name) == Some(ToUpper("undefined" + [w[0]]));
    UndefinedThenUpper(w[0]);
  }

  /** The upper-cased text of `undefined` followed by a character. */
  lemma UndefinedThenUpper(c: char)
    ensures ToUpper("undefined" + [c]) == "UNDEFINED" + [UpperChar(c)]
  {
    UndefinedUpperCased();
    ToUpperAppend("undefined", [c]);
    assert ToUpper([c]) == [UpperChar(c)];
  }

  /** The text before the first space of `w + " " + t` is `w` when `w` has no space. */
  lemma {:induction false} BeforeFirstOfJoin(w: string, t: string)
    requires ' ' !in w
    ensures BeforeFirst(w + " " + t, ' ') == w
  {
    if w != "" {
      assert (w + " " + t)[1..] == w[1..] + " " + t;
      BeforeFirstOfJoin(w[1..], t);
    }
  }

  /** A text without a space is its own first part. */
  lemma BeforeFirstWhole(w: string)
    requires ' ' !in w
    ensures BeforeFirst(w, ' ') == w
  {
  }

  /**
   * As written: a name that ends in a space, such as "Ann ", has an empty
   * second part, and its initials read "A" followed by "UNDEFINED".
   */
  lemma InitialsOfTrailingSpace(word: string)
    requires word != "" && ' ' !in word
    ensures Initials(word + " ") == Some([UpperChar(word[0])] + "UNDEFINED")
    ensures |Initials(word + " ").value| == 10
  {
    var name := word + " ";
    assert name == word + " " + "";
    BeforeFirstOfJoin(word, "");
    assert ' ' in name by { assert name[|word|] == ' '; }
    var parts := FirstTwoParts(name);
    assert parts.0 == word;
    assert name[|word| + 1..] == "";
    assert parts.1 == "";
    assert Initials(name) == Some(ToUpper([word[0]] + "undefined"));
    UpperUndefined(word[0]);
  }

  /** The upper-cased text of a character followed by `undefined`. */
  lemma UpperUndefined(c: char)
    ensures ToUpper([c] + "undefined") == [UpperChar(c)] + "UNDEFINED"
  {
    UndefinedUpperCased();
    var s := [c] + "undefined";
    assert s[1..] == "undefined";
  }

  /** `"undefined".toUpperCase()` is "UNDEFINED". */
  lemma UndefinedUpperCased()
    ensures ToUpper("undefined") == "UNDEFINED"
  {
  }

  /** Every character of `r` is the upper-cased form of some character of `name`. */
  predicate UpperLettersOf(r: string, name: string)
  {
    forall i :: 0 <= i < |r| ==> exists j :: 0 <= j < |name| && r[i] == UpperChar(name[j])
  }

  /**
   * `getInitials` with `charAt(0)` in place of `[0]`: an empty part
   * contributes nothing, so the initials are at most two letters, each the
   * upper-cased form of a letter of the name.
   */
  function InitialsCorrected(name: string): (r: string)
    ensures name == "" ==> r == "U"
    ensures |r| <= 2
    ensures name != "" ==> UpperLettersOf(r, name)
  {
    if name == "" then "U"
    else if ' ' in name then
      var parts := FirstTwoParts(name);
      CorrectedPartsAreLetters(name);
      ToUpper(CharAt0(parts.0) + CharAt0(parts.1))
    else
      var r := ToUpper(Prefix(name, 2));
      assert forall i :: 0 <= i < |r| ==> r[i] == UpperChar(name[i]);
      r
  }

  /** The first characters of the first two parts are characters of the name. */
  lemma CorrectedPartsAreLetters(name: string)
    requires ' ' in name
    ensures UpperLettersOf(ToUpper(CharAt0(FirstTwoParts(name).0) + CharAt0(FirstTwoParts(name).1)), name)
  {
    var parts := FirstTwoParts(name);
    var r := ToUpper(CharAt0(parts.0) + CharAt0(parts.1));
    forall i | 0 <= i < |r| ensures exists j :: 0 <= j < |name| && r[i] == UpperChar(name[j]) {
      if i < |CharAt0(parts.0)| {
        assert r[i] == UpperChar(name[0]);
      } else {
        var k := |parts.0| + 1;
        assert name[k..][0] == name[k];
        assert r[i] == UpperChar(name[k]);
      }
    }
  }

  /** The corrected initials of a name whose first two parts are empty are empty, where the written ones throw. */
  lemma InitialsCorrectedOfLeadingSpaces(rest: string)
    ensures InitialsCorrected(" ") == "" && Initials(" ").None?
    ensures InitialsCorrected("  " + rest) == "" && Initials("  " + rest).None?
  {
    var name := "  " + rest;
    assert name[0] == ' ';
    assert FirstTwoParts(name).0 == "";
    assert name[1..][0] == ' ';
  }

  /** Where the as-written initials are sound, the corrected ones agree. */
  lemma InitialsCorrectedAgrees(first: string, second: string)
    requires first != "" && second != "" && ' ' !in first && ' ' !in second
    ensures Some(InitialsCorrected(first + " " + second)) == Initials(first + " " + second)
  {
    var name := first + " " + second;
    assert name[|first|] == ' ';
    InitialsOfTwoWords(first, second);
    BeforeFirstOfJoin(first, second);
    assert name[|first| + 1..] == second;
    BeforeFirstWhole(second);
  }

  const NameRequired := "Display name is required"
  const NameTooShort := "Display name must be at least 2 characters"
  const PhoneInvalid := "Please enter a valid phone number"

  /** A character of the phone pattern: a digit, white space, "-", "+", "(" or ")". */
  predicate IsPhoneChar(c: char)
  {
    '0' <= c <= '9' || IsJsSpace(c) || c == '-' || c == '+' || c == '(' || c == ')'
  }

  predicate AllPhoneChars(s: string)
  {
    forall i :: 0 <= i < |s| ==> IsPhoneChar(s[i])
  }

  /** The display-name check: missing when blank after trimming, too short below two characters. */
  function NameError(name: string): (e: Option<string>)
    ensures e.Some? <==> |Trim(name)| < 2
    ensures e.Some? ==> e.value == (if Trim(name) == "" then NameRequired else NameTooShort)
  {
    var trimmed := Trim(name);
    if trimmed == "" then Some(NameRequired)
    else if |trimmed| < 2 then Some(NameTooShort)
    else None
  }

  /** The phone check: a non-empty phone with a character outside the pattern. */
  predicate PhoneRejected(phone: string)
  {
    phone != "" && !AllPhoneChars(phone)
  }

  /** The error object `validateForm` builds. */
  function FormErrors(f: ProfileForm): (e: map<string, string>)
    ensures "displayName" in e <==> NameError(f.displayName).Some?
    ensures "displayName" in e ==> e["displayName"] == NameError(f.displayName).value
    ensures "phone" in e <==> PhoneRejected(f.phone)
    ensures "phone" in e ==> e["phone"] == PhoneInvalid
    ensures forall k :: k in e ==> k == "displayName" || k == "phone"
  {
    var nameErrors := if NameError(f.displayName).Some? then map["displayName" := NameError(f.displayName).value] else map[];
    if PhoneRejected(f.phone) then nameErrors["phone" := PhoneInvalid] else nameErrors
  }

  /** `validateForm()`'s answer: no error keys. */
  predicate FormValid(f: ProfileForm)
  {
    FormErrors(f) == map[]
  }

  /** The form passes exactly when the trimmed name has two characters and the phone is empty or well formed. */
  lemma FormValidIff(f: ProfileForm)
    ensures FormValid(f) <==> |Trim(f.displayName)| >= 2 && (f.phone == "" || AllPhoneChars(f.phone))
  {
    if |Trim(f.displayName)| >= 2 && !PhoneRejected(f.phone) {
      assert FormErrors(f).Keys == {};
    } else if |Trim(f.displayName)| < 2 {
      assert "displayName" in FormErrors(f);
    } else {
      assert "phone" in FormErrors(f);
    }
  }

  /** A name of only white space is missing, not too short: the two name errors never meet. */
  lemma BlankNameIsRequired(f: ProfileForm)
    requires AllSpace(f.displayName)
    ensures "displayName" in FormErrors(f) && FormErrors(f)["displayName"] == NameRequired
  {
    TrimEmptyIff(f.displayName);
  }

  /** The storage after a successful save: theme, notifications and name, and the phone only when one was given. */
  function SavedItems(items: map<string, string>, f: ProfileForm): map<string, string>
  {
    var m := items["theme" := f.theme]["emailNotifications" := if f.emailNotifications then "true" else "false"]["displayName" := f.displayName];
    if f.phone != "" then m["phone" := f.phone] else m
  }

  /** A save writes the four profile keys (the phone only when given) and no other key. */
  lemma SavedItemsKeys(items: map<string, string>, f: ProfileForm, k: string)
    ensures k in SavedItems(items, f) <==> k in items || k in {"theme", "emailNotifications", "displayName"} || (k == "phone" && f.phone != "")
    ensures k !in {"theme", "emailNotifications", "displayName", "phone"} && k in items ==> SavedItems(items, f)[k] == items[k]
    ensures f.phone == "" && "phone" in items ==> SavedItems(items, f)["phone"] == items["phone"]
  {
  }

  /** What a save writes under each profile key. */
  lemma SavedItemsValues(items: map<string, string>, f: ProfileForm)
    ensures SavedItems(items, f)["theme"] == f.theme && SavedItems(items, f)["displayName"] == f.displayName
    ensures SavedItems(items, f)["emailNotifications"] == (if f.emailNotifications then "true" else "false")
    ensures f.phone != "" ==> SavedItems(items, f)["phone"] == f.phone
  {
  }

  /** A cancel after a save restores the saved form, as long as the theme is not empty and the phone was given or never stored. */
  lemma CancelAfterSave(items: map<string, string>, f: ProfileForm)
    requires FormValid(f) && f.theme != ""
    requires f.phone != "" || "phone" !in items || items["phone"] == ""
    ensures CancelForm(f.email, SavedItems(items, f)) == f
  {
    FormValidIff(f);
    TrimEmptyIff(f.displayName);
    var saved := SavedItems(items, f);
    SavedItemsValues(items, f);
    assert f.displayName != "";
    var g := CancelForm(f.email, saved);
    assert g.displayName == f.displayName;
    assert g.theme == f.theme;
    assert g.emailNotifications == f.emailNotifications;
    if f.phone == "" {
      SavedItemsKeys(items, f, "phone");
    }
    assert g.phone == f.phone;
  }

  /** As written, clearing the phone and saving keeps the old phone in storage, and a cancel brings it back. */
  lemma CancelRestoresClearedPhone(items: map<string, string>, f: ProfileForm)
    requires f.phone == "" && "phone" in items && items["phone"] != ""
    ensures CancelForm(f.email, SavedItems(items, f)).phone == items["phone"]
  {
  }

  /** The name in the header: the form's name, or the bare local part of the email while it is empty. */
  function HeaderName(f: ProfileForm, email: string): (name: string)
    ensures f.displayName != "" ==> name == f.displayName
    ensures f.displayName == "" ==> name == BeforeFirst(email, '@')
  {
    if f.displayName != "" then f.displayName else BeforeFirst(email, '@')
  }

  /** Typing a lone space as the display name makes the header's `getInitials` throw, whatever the email. */
  lemma SpaceNameBreaksHeader(f: ProfileForm, email: string)
    requires f.displayName == " "
    ensures Initials(HeaderName(f, email)).None?
  {
  }

  /** The "last analysis" field: "Never" exactly when there are no reports. */
  function LastAnalysisDate(reports: seq<Report>): (s: string)
    ensures s == "Never" <==> reports == []
    ensures s != "Never" ==> s == "Recently"
  {
    if |reports| == 0 then "Never" else "Recently"
  }

  /** The storage writes of a successful save, in the order `handleSave` makes them. */
  method WriteProfile(store: Storage, f: ProfileForm)
    modifies store
    ensures store.items == SavedItems(old(store.items), f)
  {
    store.SetItem("theme", f.theme);
    store.SetItem("emailNotifications", if f.emailNotifications then "true" else "false");
    store.SetItem("displayName", f.displayName);
    if f.phone != "" {
      store.SetItem("phone", f.phone);
    }
  }

  class ProfileScreen {
    var form: ProfileForm
    var errors: map<string, string>
    var isEditing: bool
    var saving: bool
    var successMessage: string
    var reports: seq<Report>
    var reportsLoading: bool

    /** The state of the first render, before the mount effect. */
    constructor (email: Option<string>)
      ensures form == ProfileForm("", if email.Some? then email.value else "", "", "light", true)
      ensures errors == map[] && !isEditing && !saving && successMessage == ""
      ensures reports == [] && reportsLoading
    {
      form := ProfileForm("", if email.Some? then email.value else "", "", "light", true);
      errors, isEditing, saving, successMessage := map[], false, false, "";
      reports, reportsLoading := [], true;
    }

    /**
     * The mount effect: without a session email it navigates to "/";
     * otherwise it seeds the form and asks for the reports of that email.
     */
    method Mount(email: Option<string>, store: Storage) returns (navigate: Option<string>, request: Option<string>)
      modifies this`form, this`reportsLoading
      ensures (email.None? || email.value == "") ==>
        navigate == Some("/") && request == None && form == old(form) && reportsLoading == old(reportsLoading)
      ensures email.Some? && email.value != "" ==>
        navigate == None && request == email && form == MountForm(email.value, store.items) && reportsLoading
    {
      if email.None? || email.value == "" {
        return Some("/"), None;
      }
      form := MountForm(email.value, store.items);
      reportsLoading := true;
      navigate, request := None, email;
    }

    /** `loadResumeActivity` after the call: a truthy status or a bare array replaces the list; nothing else changes it. */
    method ReportsArrived(result: JsVal)
      modifies this`reports, this`reportsLoading
      ensures !reportsLoading
      ensures StatusGated(result).Loaded? ==> reports == StatusGated(result).reports
      ensures StatusGated(result).NotLoaded? ==> reports == old(reports)
    {
      if StatusGated(result).Loaded? {
        reports := StatusGated(result).reports;
      }
      reportsLoading := false;
    }

    /** `handleInputChange`: the field takes the value, and only that field's error is blanked, only when it was set. */
    method HandleInputChange(change: FieldChange)
      modifies this`form, this`errors
      ensures form == Apply(old(form), change)
      ensures FieldKey(change) in old(errors) && old(errors)[FieldKey(change)] != "" ==>
        errors == old(errors)[FieldKey(change) := ""]
      ensures !(FieldKey(change) in old(errors) && old(errors)[FieldKey(change)] != "") ==>
        errors == old(errors)
    {
      form := Apply(form, change);
      var key := FieldKey(change);
      if key in errors && errors[key] != "" {
        errors := errors[key := ""];
      }
    }

    /** `validateForm`: the errors become the new error object, and the form passes when it holds no key. */
    method ValidateForm() returns (valid: bool)
      modifies this`errors
      ensures errors == FormErrors(form)
      ensures valid <==> FormValid(form)
    {
      errors := FormErrors(form);
      valid := FormValid(form);
    }

    /**
     * `handleSave` up to its wait: the errors become the new error object;
     * an invalid form stops there, a valid one starts saving, clears the
     * message, and is the form the handler will write.
     */
    method StartSave() returns (sent: Option<ProfileForm>)
      modifies this`errors, this`saving, this`successMessage
      ensures errors == FormErrors(form)
      ensures sent.Some? <==> FormValid(form)
      ensures sent.None? ==> saving == old(saving) && successMessage == old(successMessage)
      ensures sent.Some? ==> sent.value == form && saving && successMessage == ""
    {
      var valid := ValidateForm();
      if !valid {
        return None;
      }
      saving := true;
      successMessage := "";
      sent := Some(form);
    }

    /**
     * `handleSave` after its wait: `sent` is written to storage, edit mode
     * ends with the success message, and saving ends.
     */
    method HandleSave(sent: ProfileForm, store: Storage)
      modifies this`successMessage, this`isEditing, this`saving, store
      ensures store.items == SavedItems(old(store.items), sent)
      ensures successMessage == "Profile updated successfully!" && !isEditing && !saving
    {
      WriteProfile(store, sent);
      ghost var written := store.items;
      FinishSave();
      assert store.items == written;
    }

    /** The end of a successful save: the success message shows, edit mode ends, and saving ends. */
    method FinishSave()
      modifies this`successMessage, this`isEditing, this`saving
      ensures successMessage == "Profile updated successfully!" && !isEditing && !saving
    {
      successMessage := "Profile updated successfully!";
      isEditing := false;
      saving := false;
    }

    /** `handleCancel`: the form is reloaded from storage, the errors and the message are cleared, and edit mode ends. */
    method HandleCancel(email: string, store: Storage)
      modifies this`form, this`errors, this`isEditing, this`successMessage
      ensures form == CancelForm(email, store.items)
      ensures errors == map[] && !isEditing && successMessage == ""
    {
      form := CancelForm(email, store.items);
      errors := map[];
      isEditing := false;
      successMessage := "";
    }
  }
}
