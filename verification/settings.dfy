/**
 * The preferences screen of `src/components/Settings.jsx`: seven settings are
 * read from browser storage with a default for each, edited one key at a time,
 * compared with the loaded copy to light up the save button, and written back
 * as strings.
 */
module Settings {
  import opened JsValues
  import opened BrowserStorage

  /** The seven settings, in the order the settings object declares them. */
  datatype Key =
    | EmailNotifications
    | Theme
    | Language
    | TwoFactorAuth
    | ResumeDataVisibility
    | AnalysisAlerts
    | WeeklySummary

  const Keys: seq<Key> := [EmailNotifications, Theme, Language, TwoFactorAuth, ResumeDataVisibility, AnalysisAlerts, WeeklySummary]

  /** The storage key of a setting. */
  function KeyName(k: Key): (name: string)
    ensures name != ""
  {
    match k
    case EmailNotifications => "emailNotifications"
    case Theme => "theme"
    case Language => "language"
    case TwoFactorAuth => "twoFactorAuth"
    case ResumeDataVisibility => "resumeDataVisibility"
    case AnalysisAlerts => "analysisAlerts"
    case WeeklySummary => "weeklySummary"
  }

  /** Different settings are stored under different keys. */
  lemma KeyNameInjective(a: Key, b: Key)
    requires KeyName(a) == KeyName(b)
    ensures a == b
  {
  }

  /** `Keys` lists every setting exactly once. */
  lemma KeysComplete(k: Key)
    ensures k in Keys
    ensures forall i, j :: 0 <= i < j < |Keys| ==> Keys[i] != Keys[j]
  {
  }

  /** The storage keys written after visiting `ks`. */
  function Names(ks: seq<Key>): (names: set<string>)
    ensures forall k :: k in ks ==> KeyName(k) in names
  {
    if ks == [] then {} else Names(ks[..|ks| - 1]) + {KeyName(ks[|ks| - 1])}
  }

  /** The storage keys the screen owns: a name is one of them exactly when it names a setting. */
  lemma {:induction false} NamesOfKeys(ks: seq<Key>, n: string)
    ensures n in Names(ks) <==> exists k :: k in ks && KeyName(k) == n
  {
    if ks != [] {
      NamesOfKeys(ks[..|ks| - 1], n);
      var last := ks[|ks| - 1];
      if n in Names(ks[..|ks| - 1]) {
        var k :| k in ks[..|ks| - 1] && KeyName(k) == n;
        assert k in ks;
      }
      if n == KeyName(last) {
        assert last in ks;
      }
      if exists k :: k in ks && KeyName(k) == n {
        var k :| k in ks && KeyName(k) == n;
        if k != last {
          assert k in ks[..|ks| - 1];
        }
      }
    }
  }

  /** A checkbox flag or a select's text. */
  datatype Value = Flag(b: bool) | Text(s: string)

  /** A setting's value as `toString` writes it. */
  function ToString(v: Value): (s: string)
    ensures v.Flag? ==> (s == "true" <==> v.b) && (s == "false" <==> !v.b)
    ensures v.Text? ==> s == v.s
  {
    match v
    case Flag(b) => if b then "true" else "false"
    case Text(s) => s
  }

  /** Whether a setting is a checkbox (the others are selects). */
  predicate IsFlag(k: Key)
  {
    k.EmailNotifications? || k.TwoFactorAuth? || k.AnalysisAlerts? || k.WeeklySummary?
  }

  /**
   * The settings object. Every key is always present; a value is a flag or a
   * text, and nothing but the form controls keeps a key's kind fixed.
   */
  datatype Prefs = Prefs(
    emailNotifications: Value,
    theme: Value,
    language: Value,
    twoFactorAuth: Value,
    resumeDataVisibility: Value,
    analysisAlerts: Value,
    weeklySummary: Value)

  /** `settings[key]`. */
  function Setting(p: Prefs, k: Key): Value
  {
    match k
    case EmailNotifications => p.emailNotifications
    case Theme => p.theme
    case Language => p.language
    case TwoFactorAuth => p.twoFactorAuth
    case ResumeDataVisibility => p.resumeDataVisibility
    case AnalysisAlerts => p.analysisAlerts
    case WeeklySummary => p.weeklySummary
  }

  /** `{...prev, [key]: value}`. */
  function With(p: Prefs, key: Key, value: Value): (q: Prefs)
    ensures Setting(q, key) == value
    ensures forall k :: k != key ==> Setting(q, k) == Setting(p, k)
  {
    match key
    case EmailNotifications => p.(emailNotifications := value)
    case Theme => p.(theme := value)
    case Language => p.(language := value)
    case TwoFactorAuth => p.(twoFactorAuth := value)
    case ResumeDataVisibility => p.(resumeDataVisibility := value)
    case AnalysisAlerts => p.(analysisAlerts := value)
    case WeeklySummary => p.(weeklySummary := value)
  }

  /** Two settings objects are equal exactly when they agree on every key. */
  lemma PrefsExtensional(p: Prefs, q: Prefs)
    requires forall k :: Setting(p, k) == Setting(q, k)
    ensures p == q
  {
    assert Setting(p, EmailNotifications) == Setting(q, EmailNotifications);
    assert Setting(p, Theme) == Setting(q, Theme);
    assert Setting(p, Language) == Setting(q, Language);
    assert Setting(p, TwoFactorAuth) == Setting(q, TwoFactorAuth);
    assert Setting(p, ResumeDataVisibility) == Setting(q, ResumeDataVisibility);
    assert Setting(p, AnalysisAlerts) == Setting(q, AnalysisAlerts);
    assert Setting(p, WeeklySummary) == Setting(q, WeeklySummary);
  }

  /** Settings as the form controls produce them: checkboxes as flags, selects as non-empty text. */
  predicate WellFormed(p: Prefs)
  {
    forall k :: (IsFlag(k) <==> Setting(p, k).Flag?) && (Setting(p, k).Text? ==> Setting(p, k).s != "")
  }

  /** The settings before anything has been read. */
  const Defaults := Prefs(Flag(true), Text("light"), Text("en"), Flag(false), Text("private"), Flag(true), Flag(true))

  /**
   * The stored-settings parse: a default-on checkbox is off only for the exact
   * string "false", two-factor is on only for the exact string "true", and a
   * select falls back to its default when missing or empty.
   */
  function LoadKey(items: map<string, string>, k: Key): (v: Value)
    ensures IsFlag(k) <==> v.Flag?
    ensures v.Text? ==> v.s != ""
  {
    var stored := Lookup(items, KeyName(k));
    if k == TwoFactorAuth then Flag(stored == Some("true"))
    else if IsFlag(k) then Flag(stored != Some("false"))
    else if stored.Some? && stored.value != "" then Text(stored.value)
    else Setting(Defaults, k)
  }

  /** The settings object built from storage. */
  function Load(items: map<string, string>): (p: Prefs)
    ensures forall k :: Setting(p, k) == LoadKey(items, k)
    ensures WellFormed(p)
  {
    Prefs(
      LoadKey(items, EmailNotifications),
      LoadKey(items, Theme),
      LoadKey(items, Language),
      LoadKey(items, TwoFactorAuth),
      LoadKey(items, ResumeDataVisibility),
      LoadKey(items, AnalysisAlerts),
      LoadKey(items, WeeklySummary))
  }

  /** With nothing stored, the loaded settings are the defaults. */
  lemma LoadEmptyIsDefaults()
    ensures Load(map[]) == Defaults
  {
  }

  /** Only the exact text "false" turns off a default-on checkbox, and only "true" turns on two-factor. */
  lemma FlagSentinels(items: map<string, string>, k: Key)
    requires IsFlag(k)
    ensures k != TwoFactorAuth ==> (Setting(Load(items), k) == Flag(false) <==> Lookup(items, KeyName(k)) == Some("false"))
    ensures k == TwoFactorAuth ==> (Setting(Load(items), k) == Flag(true) <==> Lookup(items, KeyName(k)) == Some("true"))
  {
  }

  /** The storage entries the save loop has written after visiting `ks`. */
  function Serialised(p: Prefs, ks: seq<Key>): (m: map<string, string>)
    ensures m.Keys == Names(ks)
    ensures forall k :: k in ks ==> m[KeyName(k)] == ToString(Setting(p, k))
  {
    if ks == [] then map[]
    else
      var last := ks[|ks| - 1];
      var m := Serialised(p, ks[..|ks| - 1])[KeyName(last) := ToString(Setting(p, last))];
      assert forall k :: k in ks && k != last ==> k in ks[..|ks| - 1];
      m
  }

  /** Saving writes exactly the seven setting keys and leaves every other key as it was. */
  lemma SaveTouchesOnlySettingKeys(items: map<string, string>, p: Prefs, key: string)
    ensures key in Names(Keys) <==> exists k :: KeyName(k) == key
    ensures key in Names(Keys) ==> key in items + Serialised(p, Keys)
    ensures key !in Names(Keys) ==>
      (key in items + Serialised(p, Keys) <==> key in items) &&
      (key in items ==> (items + Serialised(p, Keys))[key] == items[key])
  {
    NamesOfKeys(Keys, key);
    if exists k :: KeyName(k) == key {
      var k :| KeyName(k) == key;
      KeysComplete(k);
    }
  }

  /** A setting read back from the text `toString` wrote for it is the value written. */
  lemma LoadKeyOfWritten(items: map<string, string>, k: Key, v: Value)
    requires Lookup(items, KeyName(k)) == Some(ToString(v))
    requires (IsFlag(k) <==> v.Flag?) && (v.Text? ==> v.s != "")
    ensures LoadKey(items, k) == v
  {
    if v.Flag? {
      assert "true" != "false";
    }
  }

  /** Saving and then loading gives back the same settings. */
  lemma SaveThenLoad(items: map<string, string>, p: Prefs)
    requires WellFormed(p)
    ensures Load(items + Serialised(p, Keys)) == p
  {
    var after := items + Serialised(p, Keys);
    forall k ensures Setting(Load(after), k) == Setting(p, k) {
      KeysComplete(k);
      LoadKeyOfWritten(after, k, Setting(p, k));
    }
    PrefsExtensional(Load(after), p);
  }

  /** Loading, saving unchanged and loading again is the first load. */
  lemma LoadSaveLoad(items: map<string, string>)
    ensures Load(items + Serialised(Load(items), Keys)) == Load(items)
  {
    SaveThenLoad(items, Load(items));
  }

  /** `JSON.stringify(settings) !== JSON.stringify(originalSettings)`; the original starts as `{}`. */
  predicate HasChanges(settings: Prefs, original: Option<Prefs>)
  {
    original != Some(settings)
  }

  /** With the loaded copy in place, there are changes exactly when some setting differs. */
  lemma HasChangesIffSomeKeyDiffers(settings: Prefs, original: Prefs)
    ensures HasChanges(settings, Some(original)) <==> exists k :: Setting(settings, k) != Setting(original, k)
  {
    if !(exists k :: Setting(settings, k) != Setting(original, k)) {
      PrefsExtensional(settings, original);
    }
  }

  /** One more turn of the save loop writes one more key. */
  lemma SerialisedStep(p: Prefs, ks: seq<Key>, i: nat)
    requires i < |ks|
    ensures Serialised(p, ks[..i + 1]) == Serialised(p, ks[..i])[KeyName(ks[i]) := ToString(Setting(p, ks[i]))]
  {
    assert ks[..i + 1][..i] == ks[..i];
  }

  /** Writing a key after a merge is merging the written key in. */
  lemma UnionUpdate(a: map<string, string>, b: map<string, string>, key: string, value: string)
    ensures (a + b)[key := value] == a + b[key := value]
  {
  }

  class SettingsScreen {
    var settings: Prefs
    var originalSettings: Option<Prefs>
    var hasChanges: bool
    var saving: bool
    var successMessage: string
    var errorMessage: string

    /** The dirty flag is in step with the two copies, as the comparing effect keeps it. */
    predicate Valid()
      reads this
    {
      hasChanges == HasChanges(settings, originalSettings)
    }

    /** The defaults, no loaded copy yet. */
    constructor ()
      ensures Valid()
      ensures settings == Defaults && originalSettings == None && hasChanges
      ensures !saving && successMessage == "" && errorMessage == ""
    {
      settings, originalSettings, hasChanges := Defaults, None, true;
      saving, successMessage, errorMessage := false, "", "";
    }

    /** The mount effect: without a session email it navigates to "/"; otherwise it loads both copies. */
    method Mount(email: Option<string>, store: Storage) returns (navigate: Option<string>)
      requires Valid()
      modifies this`settings, this`originalSettings, this`hasChanges
      ensures Valid()
      ensures (email.None? || email.value == "") ==>
        navigate == Some("/") && settings == old(settings) && originalSettings == old(originalSettings)
      ensures email.Some? && email.value != "" ==>
        navigate == None && settings == Load(store.items) && originalSettings == Some(settings) && !hasChanges
    {
      if email.None? || email.value == "" {
        return Some("/");
      }
      var saved := Load(store.items);
      settings, originalSettings := saved, Some(saved);
      hasChanges := HasChanges(settings, originalSettings);
      navigate := None;
    }

    /** `handleSettingChange`: only the named setting changes, and the error message is cleared. */
    method HandleSettingChange(key: Key, value: Value)
      requires Valid()
      modifies this`settings, this`hasChanges, this`errorMessage
      ensures Valid()
      ensures settings == With(old(settings), key, value) && errorMessage == ""
      ensures originalSettings.Some? ==>
        (hasChanges <==> exists k :: Setting(settings, k) != Setting(originalSettings.value, k))
    {
      settings := With(settings, key, value);
      errorMessage := "";
      hasChanges := HasChanges(settings, originalSettings);
      if originalSettings.Some? {
        HasChangesIffSomeKeyDiffers(settings, originalSettings.value);
      }
    }

    /**
     * `handleSave` up to its wait: saving starts, and the settings the
     * handler closes over are the ones it will write.
     */
    method StartSave() returns (sent: Prefs)
      requires Valid()
      modifies this`saving
      ensures Valid()
      ensures saving && sent == settings
    {
      saving := true;
      sent := settings;
    }

    /**
     * `handleSave` after its wait: every setting of `sent` is written with
     * `toString`, in declaration order, and `sent` becomes the loaded copy.
     * The dirty flag is set false and then the comparing effect runs again
     * on the new copy, so it stays set only when the settings were edited
     * during the wait.
     */
    method HandleSave(sent: Prefs, store: Storage)
      requires Valid()
      modifies this`originalSettings, this`hasChanges, this`saving, this`successMessage, store
      ensures Valid()
      ensures store.items == old(store.items) + Serialised(sent, Keys)
      ensures originalSettings == Some(sent) && !saving
      ensures hasChanges <==> settings != sent
      ensures successMessage == "Settings saved successfully!"
    {
      var i := 0;
      while i < |Keys|
        invariant 0 <= i <= |Keys|
        invariant store.items == old(store.items) + Serialised(sent, Keys[..i])
      {
        store.SetItem(KeyName(Keys[i]), ToString(Setting(sent, Keys[i])));
        SerialisedStep(sent, Keys, i);
        UnionUpdate(old(store.items), Serialised(sent, Keys[..i]), KeyName(Keys[i]), ToString(Setting(sent, Keys[i])));
        i := i + 1;
      }
      assert Keys[..i] == Keys;
      originalSettings := Some(sent);
      hasChanges := HasChanges(settings, originalSettings);
      saving := false;
      successMessage := "Settings saved successfully!";
    }
  }
}
