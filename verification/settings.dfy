/** The settings page: a profile and preferences form, validation of the
    profile part, saving the preferences, and cancelling an edit.

    Form values keep JavaScript's dynamic typing: a text input yields a string,
    the checkbox a boolean, and a stored preference may be a number. */
module Settings {
  import opened Common
  import opened Storage
  import opened FieldRules

  datatype Value = Str(s: string) | Flag(b: bool) | Num(n: int) | NaN

  /** The stored preferences record. */
  datatype Preferences = Preferences(theme: Value, notifications: Value, refreshInterval: Value, temperatureUnit: Value)

  /** The preferences used when none are stored. */
  const DefaultPreferences := Preferences(Str("light"), Flag(true), Num(10), Str("celsius"))

  // parseInt

  /** `String(n)` for an integer: its decimal numeral, with `-` when negative. */
  function IntToString(n: int): (s: string)
    ensures n >= 0 ==> s == NatToString(n)
    ensures n < 0 ==> s == "-" + NatToString(-n)
  {
    if n < 0 then "-" + NatToString(-n) else NatToString(n)
  }

  /** The string `parseInt` reads a value as. */
  function ToJsString(v: Value): string {
    match v
    case Str(s) => s
    case Flag(b) => if b then "true" else "false"
    case Num(n) => IntToString(n)
    case NaN => "NaN"
  }

  /** The string without its leading whitespace. */
  function TrimStart(s: string): (r: string)
    ensures |r| <= |s| && r == s[|s| - |r|..]
    ensures forall k :: 0 <= k < |s| - |r| ==> IsSpace(s[k])
    ensures r == [] || !IsSpace(r[0])
  {
    if s != [] && IsSpace(s[0]) then TrimStart(s[1..]) else s
  }

  /** A digit of radix 16 when `hex`, of radix 10 otherwise. */
  predicate IsRadixDigit(c: char, hex: bool) {
    IsDigit(c) || (hex && ('a' <= c <= 'f' || 'A' <= c <= 'F'))
  }

  function RadixDigitValue(c: char, hex: bool): (d: nat)
    requires IsRadixDigit(c, hex)
    ensures d < (if hex then 16 else 10)
  {
    if IsDigit(c) then DigitValue(c)
    else if 'a' <= c <= 'f' then c as int - 'a' as int + 10
    else c as int - 'A' as int + 10
  }

  /** The longest prefix made of digits of the radix. */
  function LeadingDigits(s: string, hex: bool): (r: string)
    ensures |r| <= |s| && r == s[..|r|]
    ensures forall k :: 0 <= k < |r| ==> IsRadixDigit(r[k], hex)
    ensures |r| < |s| ==> !IsRadixDigit(s[|r|], hex)
  {
    if s != [] && IsRadixDigit(s[0], hex) then [s[0]] + LeadingDigits(s[1..], hex) else []
  }

  /** The number a string of digits of the radix denotes. */
  function RadixValue(s: string, hex: bool): nat
    requires forall k :: 0 <= k < |s| ==> IsRadixDigit(s[k], hex)
  {
    if s == [] then 0
    else RadixValue(s[..|s| - 1], hex) * (if hex then 16 else 10) + RadixDigitValue(s[|s| - 1], hex)
  }

  /** `0x` or `0X` at the front: the digits that follow are read in radix 16. */
  predicate HasHexPrefix(u: string) {
    |u| >= 2 && u[0] == '0' && (u[1] == 'x' || u[1] == 'X')
  }

  /** The number at the front of an unsigned string: an optional hex prefix and
      the longest run of digits after it; nothing when that run is empty. */
  function ParseUnsigned(u: string): (r: Option<nat>)
    ensures r.None? <==> LeadingDigits(if HasHexPrefix(u) then u[2..] else u, HasHexPrefix(u)) == []
  {
    var hex := HasHexPrefix(u);
    var digits := LeadingDigits(if hex then u[2..] else u, hex);
    if digits == [] then None else Some(RadixValue(digits, hex))
  }

  function Signed(magnitude: Option<nat>, negative: bool): (r: Value)
    ensures r.NaN? <==> magnitude.None?
    ensures r.Num? ==> r.n == if negative then 0 - magnitude.value else magnitude.value
  {
    match magnitude
    case None => NaN
    case Some(m) => Num(if negative then 0 - m else m)
  }

  /** `parseInt(s)` without a radix: leading whitespace is skipped, one sign is
      read, a `0x`/`0X` prefix selects radix 16, and the longest run of digits
      that follows is the number; without any digit the result is NaN. */
  function ParseIntString(s: string): (r: Value)
    ensures r.Num? || r.NaN?
  {
    var t := TrimStart(s);
    if |t| > 0 && (t[0] == '-' || t[0] == '+') then Signed(ParseUnsigned(t[1..]), t[0] == '-')
    else Signed(ParseUnsigned(t), false)
  }

  /** `parseInt(v)`: the value is first turned into a string. */
  function ParseInt(v: Value): (r: Value)
    ensures r.Num? || r.NaN?
  {
    ParseIntString(ToJsString(v))
  }

  lemma {:induction false} RadixTenIsDecimal(s: string)
    requires AllDigits(s)
    ensures forall k :: 0 <= k < |s| ==> IsRadixDigit(s[k], false)
    ensures RadixValue(s, false) == DigitsValue(s)
  {
    if s != [] {
      RadixTenIsDecimal(s[..|s| - 1]);
    }
  }

  lemma {:induction false} LeadingDigitsWhole(s: string, hex: bool)
    requires forall k :: 0 <= k < |s| ==> IsRadixDigit(s[k], hex)
    ensures LeadingDigits(s, hex) == s
  {
    if s != [] {
      LeadingDigitsWhole(s[1..], hex);
    }
  }

  lemma DigitNotSpace(c: char)
    requires IsDigit(c)
    ensures !IsSpace(c) && c != '-' && c != '+'
  {
  }

  /** The unsigned reader reads a printed natural number back. */
  lemma ParseUnsignedNumeral(n: nat)
    ensures ParseUnsigned(NatToString(n)) == Some(n)
  {
    var s := NatToString(n);
    assert !HasHexPrefix(s);
    RadixTenIsDecimal(s);
    LeadingDigitsWhole(s, false);
    NatToStringRoundTrip(n);
  }

  /** Reading a printed natural number back gives the number. */
  lemma ParseIntNumeral(n: nat)
    ensures ParseIntString(NatToString(n)) == Num(n)
  {
    var s := NatToString(n);
    DigitNotSpace(s[0]);
    assert TrimStart(s) == s;
    ParseUnsignedNumeral(n);
  }

  /** A number survives `parseInt` unchanged, whatever its sign. */
  lemma ParseIntNumber(n: int)
    ensures ParseInt(Num(n)) == Num(n)
  {
    if n >= 0 {
      ParseIntNumeral(n);
    } else {
      var t := "-" + NatToString(-n);
      assert TrimStart(t) == t;
      assert t[1..] == NatToString(-n);
      ParseUnsignedNumeral(-n);
    }
  }

  /** NaN reads as the string "NaN", which has no digits. */
  lemma ParseIntNaN()
    ensures ParseInt(NaN) == NaN
  {
    assert !IsSpace('N');
    assert TrimStart("NaN") == "NaN";
    assert LeadingDigits("NaN", false) == [];
  }

  /** Parsing a parsed value changes nothing more. */
  lemma ParseIntIdempotent(v: Value)
    ensures ParseInt(ParseInt(v)) == ParseInt(v)
  {
    var r := ParseInt(v);
    if r.Num? {
      ParseIntNumber(r.n);
    } else {
      ParseIntNaN();
    }
  }

  lemma {:induction false} TrimStartAt(s: string, k: nat)
    requires k <= |s| && forall i :: 0 <= i < k ==> IsSpace(s[i])
    requires k == |s| || !IsSpace(s[k])
    ensures TrimStart(s) == s[k..]
  {
    if k > 0 {
      TrimStartAt(s[1..], k - 1);
      assert s[1..][k - 1..] == s[k..];
    }
  }

  lemma {:induction false} LeadingDigitsAt(s: string, hex: bool, k: nat)
    requires k <= |s| && forall i :: 0 <= i < k ==> IsRadixDigit(s[i], hex)
    requires k == |s| || !IsRadixDigit(s[k], hex)
    ensures LeadingDigits(s, hex) == s[..k]
  {
    if k > 0 {
      LeadingDigitsAt(s[1..], hex, k - 1);
      assert [s[0]] + s[1..][..k - 1] == s[..k];
    }
  }

  /** Reading stops at the first character that is not a digit. */
  lemma ParseUnsignedStopsAtUnit()
    ensures ParseUnsigned("30s") == Some(30)
  {
    var t := "30s";
    LeadingDigitsAt(t, false, 2);
    assert t[..2] == "30";
    assert RadixValue("30", false) == 30 by { assert "30"[..1] == "3"; }
    assert !HasHexPrefix(t);
  }

  /** After leading blanks, a string that does not start with a sign is read unsigned. */
  lemma {:induction false} ParseIntUnsignedAt(s: string, k: nat)
    requires k < |s| && forall i :: 0 <= i < k ==> IsSpace(s[i])
    requires !IsSpace(s[k]) && s[k] != '-' && s[k] != '+'
    ensures ParseIntString(s) == Signed(ParseUnsigned(s[k..]), false)
  {
    TrimStartAt(s, k);
  }

  /** Leading blanks are skipped and a trailing unit is ignored. */
  lemma ParseIntLenient()
    ensures ParseInt(Str("  30s")) == Num(30)
  {
    var s := "  30s";
    ParseIntUnsignedAt(s, 2);
    assert s[2..] == "30s";
    ParseUnsignedStopsAtUnit();
  }

  /** After a `0x` prefix the digits are read in radix 16. */
  lemma ParseUnsignedHex()
    ensures ParseUnsigned("0x1e") == Some(30)
  {
    var u := "0x1e";
    assert HasHexPrefix(u);
    var w := u[2..];
    assert w == "1e";
    LeadingDigitsAt(w, true, 2);
    assert w[..2] == "1e";
    assert RadixValue("1e", true) == 30 by { assert "1e"[..1] == "1"; }
  }

  /** A `0x` prefix switches to radix 16. */
  lemma ParseIntHex()
    ensures ParseInt(Str("0x1e")) == Num(30)
  {
    var s := "0x1e";
    ParseIntUnsignedAt(s, 0);
    assert s[0..] == s;
    ParseUnsignedHex();
  }

  /** A leading minus sign negates. */
  lemma ParseIntMinus()
    ensures ParseInt(Str("-5")) == Num(-5)
  {
    var s := "-5";
    TrimStartAt(s, 0);
    var u := s[1..];
    assert u == "5";
    LeadingDigitsAt(u, false, 1);
    assert u[..1] == "5";
  }

  /** Text that does not start with digits is NaN. */
  lemma ParseIntNoDigits()
    ensures ParseInt(Str("fast")) == NaN
  {
    TrimStartAt("fast", 0);
    assert !HasHexPrefix("fast");
    LeadingDigitsAt("fast", false, 0);
  }

  /** A boolean is read as "true" or "false", which has no digits. */
  lemma ParseIntBoolean()
    ensures ParseInt(Flag(true)) == NaN
  {
    assert ToJsString(Flag(true)) == "true";
    TrimStartAt("true", 0);
    assert !HasHexPrefix("true");
    LeadingDigitsAt("true", false, 0);
  }

  // Validation

  /** The outcome of `validateForm`: accepted, or the first failing check. */
  datatype SettingsCheck = Accepted | NameMissing | EmailMissing | EmailMalformed

  /** The notification shown once a save completes. */
  const SavedNotice := "Settings saved successfully!"

  /** The error notification each refusal raises; an accepted form raises none. */
  function CheckMessage(c: SettingsCheck): (r: Option<string>)
    ensures r.None? <==> c == Accepted
    ensures r.Some? ==> r.value in {NameRequired, EmailRequired, EmailInvalid}
  {
    match c
    case Accepted => None
    case NameMissing => Some(NameRequired)
    case EmailMissing => Some(EmailRequired)
    case EmailMalformed => Some(EmailInvalid)
  }

  /** The checks in order: a blank name, then a blank email, then an email the
      pattern refuses. Only the first failure is reported. */
  function ValidateSettings(name: string, email: string): (r: SettingsCheck)
    ensures r == NameMissing <==> IsBlank(name)
    ensures r == EmailMissing <==> !IsBlank(name) && IsBlank(email)
    ensures r == EmailMalformed <==> !IsBlank(name) && !IsBlank(email) && !MatchesEmailPattern(email)
    ensures r == Accepted <==> !IsBlank(name) && MatchesEmailPattern(email)
  {
    if IsBlank(name) then NameMissing
    else if IsBlank(email) then EmailMissing
    else if !MatchesEmailPattern(email) then EmailMalformed
    else EmailPatternShape(email); Accepted
  }
  /** The notification a save raises, in terms of the form: the message of the
      first failing check, and none exactly when the form is accepted. */
  lemma SaveNotice(name: string, email: string)
    ensures var m := CheckMessage(ValidateSettings(name, email));
      && (m == Some(NameRequired) <==> IsBlank(name))
      && (m == Some(EmailRequired) <==> !IsBlank(name) && IsBlank(email))
      && (m == Some(EmailInvalid) <==> !IsBlank(name) && !IsBlank(email) && !MatchesEmailPattern(email))
      && (m == None <==> !IsBlank(name) && MatchesEmailPattern(email))
  {
    assert NameRequired[0] != EmailRequired[0] && NameRequired[0] != EmailInvalid[0];
    assert EmailRequired[9] != EmailInvalid[9];
  }


  // The page

  /** `user?.name || ''` and `user?.email || ''`. */
  function NameOf(user: Option<Account>): string {
    if user.Some? then user.value.name else ""
  }

  function EmailOf(user: Option<Account>): string {
    if user.Some? then user.value.email else ""
  }

  const FormKeys := {"name", "email", "theme", "notifications", "refreshInterval", "temperatureUnit"}

  /** The form built from a user and stored preferences (initially and on cancel). */
  function FormFor(user: Option<Account>, prefs: Preferences): (form: map<string, Value>)
    ensures form.Keys == FormKeys
    ensures form["name"] == Str(NameOf(user)) && form["email"] == Str(EmailOf(user))
    ensures form["theme"] == prefs.theme && form["notifications"] == prefs.notifications
    ensures form["refreshInterval"] == prefs.refreshInterval && form["temperatureUnit"] == prefs.temperatureUnit
  {
    map["name" := Str(NameOf(user)), "email" := Str(EmailOf(user)),
        "theme" := prefs.theme, "notifications" := prefs.notifications,
        "refreshInterval" := prefs.refreshInterval, "temperatureUnit" := prefs.temperatureUnit]
  }

  /** The record a successful save stores: the four preference fields of the
      form, the interval passed through `parseInt`. */
  function SavedPreferences(form: map<string, Value>): (p: Preferences)
    requires FormKeys <= form.Keys
    ensures p.refreshInterval.Num? || p.refreshInterval.NaN?
  {
    Preferences(form["theme"], form["notifications"], ParseInt(form["refreshInterval"]), form["temperatureUnit"])
  }

  /** Name and email are never persisted: the saved record does not depend on them. */
  lemma SavedIgnoresProfile(form: map<string, Value>, name: Value, email: Value)
    requires FormKeys <= form.Keys
    ensures SavedPreferences(form["name" := name]["email" := email]) == SavedPreferences(form)
  {
    var f := form["name" := name]["email" := email];
    assert f["theme"] == form["theme"] && f["notifications"] == form["notifications"];
    assert f["refreshInterval"] == form["refreshInterval"] && f["temperatureUnit"] == form["temperatureUnit"];
  }

  /** Saving an untouched form of the defaults stores the defaults. */
  lemma SaveDefaultsUnchanged(user: Option<Account>)
    ensures SavedPreferences(FormFor(user, DefaultPreferences)) == DefaultPreferences
  {
    ParseIntNumber(10);
  }

  /** Save, cancel, save again: the second save stores what the first stored. */
  lemma SaveIsStable(form: map<string, Value>, user: Option<Account>)
    requires FormKeys <= form.Keys
    ensures SavedPreferences(FormFor(user, SavedPreferences(form))) == SavedPreferences(form)
  {
    ParseIntIdempotent(form["refreshInterval"]);
  }

  class SettingsPage {
    var formData: map<string, Value>
    var preferences: Preferences
    var isEditing: bool
    var isSaving: bool
    /** Save completions scheduled and not yet run. */
    var pendingSaves: nat

    /** The form has all six fields, and name and email hold text. */
    ghost predicate Valid()
      reads this
    {
      FormKeys <= formData.Keys && formData["name"].Str? && formData["email"].Str?
    }

    /** Preferences are the stored ones, or the defaults when none are stored;
        the form starts from them and the current user. */
    constructor (user: Option<Account>, stored: Option<Preferences>)
      ensures Valid()
      ensures preferences == stored.GetOr(DefaultPreferences)
      ensures formData == FormFor(user, preferences)
      ensures !isEditing && !isSaving && pendingSaves == 0
    {
      preferences := stored.GetOr(DefaultPreferences);
      formData := FormFor(user, stored.GetOr(DefaultPreferences));
      isEditing := false;
      isSaving := false;
      pendingSaves := 0;
    }

    /** The effect run when the user changes: name and email follow the user, the rest stays. */
    method UserChanged(user: Option<Account>)
      requires Valid()
      modifies this
      ensures Valid()
      ensures formData == old(formData)["name" := Str(NameOf(user))]["email" := Str(EmailOf(user))]
      ensures preferences == old(preferences) && isEditing == old(isEditing) && isSaving == old(isSaving)
    {
      formData := formData["name" := Str(NameOf(user))]["email" := Str(EmailOf(user))];
    }

    /** "Make Changes". */
    method StartEditing()
      modifies this
      ensures isEditing
      ensures formData == old(formData) && preferences == old(preferences) && isSaving == old(isSaving)
    {
      isEditing := true;
    }

    /** `handleChange`: the named field takes `checked` for the checkbox and the
        text otherwise; no other field changes. The page's only checkbox is
        "notifications". */
    method HandleChange(name: string, inputType: string, value: string, checked: bool)
      requires Valid()
      requires inputType == "checkbox" ==> name == "notifications"
      modifies this
      ensures Valid()
      ensures formData == old(formData)[name := if inputType == "checkbox" then Flag(checked) else Str(value)]
      ensures preferences == old(preferences) && isEditing == old(isEditing) && isSaving == old(isSaving)
    {
      formData := formData[name := if inputType == "checkbox" then Flag(checked) else Str(value)];
    }

    /** `handleRadioChange`: the named field takes the option's text. */
    method HandleRadioChange(name: string, value: string)
      requires Valid()
      modifies this
      ensures Valid()
      ensures formData == old(formData)[name := Str(value)]
      ensures preferences == old(preferences) && isEditing == old(isEditing) && isSaving == old(isSaving)
    {
      formData := formData[name := Str(value)];
    }

    /** `handleSave`: a refused form changes nothing but raises the error
        notification of the first failing check; an accepted one stores the
        preferences at once and schedules the completion. */
    method HandleSave() returns (check: SettingsCheck, notice: Option<string>)
      requires Valid()
      modifies this
      ensures Valid()
      ensures check == ValidateSettings(formData["name"].s, formData["email"].s)
      ensures notice == CheckMessage(check)
      ensures formData == old(formData) && isEditing == old(isEditing)
      ensures check != Accepted ==>
        preferences == old(preferences) && isSaving == old(isSaving) && pendingSaves == old(pendingSaves)
      ensures check == Accepted ==>
        preferences == SavedPreferences(formData) && isSaving && pendingSaves == old(pendingSaves) + 1
    {
      var name, email := formData["name"].s, formData["email"].s;
      check := ValidateSettings(name, email);
      notice := CheckMessage(check);
      if check == Accepted {
        StartSaving(SavedPreferences(formData));
      }
    }

    /** The accepted branch of a save: saving starts, the given record becomes
        the preferences and its completion is scheduled. */
    method StartSaving(saved: Preferences)
      requires Valid()
      modifies this
      ensures Valid()
      ensures preferences == saved && isSaving && pendingSaves == old(pendingSaves) + 1
      ensures formData == old(formData) && isEditing == old(isEditing)
    {
      preferences, isSaving, pendingSaves := saved, true, pendingSaves + 1;
    }

    /** The scheduled completion of a save: the success notification is raised,
        and editing and saving end. */
    method FinishSave() returns (notice: Option<string>)
      modifies this
      ensures notice == Some(SavedNotice) <==> old(pendingSaves) > 0
      ensures notice.None? <==> old(pendingSaves) == 0
      ensures old(pendingSaves) > 0 ==> !isEditing && !isSaving && pendingSaves == old(pendingSaves) - 1
      ensures old(pendingSaves) == 0 ==>
        isEditing == old(isEditing) && isSaving == old(isSaving) && pendingSaves == 0
      ensures formData == old(formData) && preferences == old(preferences)
    {
      notice := None;
      if pendingSaves > 0 {
        notice := Some(SavedNotice);
        isEditing := false;
        isSaving := false;
        pendingSaves := pendingSaves - 1;
      }
    }

    /** `handleCancel`: the form is rebuilt from the stored preferences and the
        current user, and editing ends. */
    method HandleCancel(user: Option<Account>)
      modifies this
      ensures Valid()
      ensures formData == FormFor(user, preferences)
      ensures !isEditing
      ensures preferences == old(preferences) && isSaving == old(isSaving) && pendingSaves == old(pendingSaves)
    {
      formData := FormFor(user, preferences);
      isEditing := false;
    }
  }
}
