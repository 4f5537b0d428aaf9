/**
 * The registration form of frontend/src/pages/Register.tsx: the client-side
 * checks, the submit button's enabling condition, and `handleSubmit`, which
 * gates on the checks, stores the tokens of the automatic login, or maps the
 * server's error body onto the form's fields.
 */
module Register {
  import opened Wrappers
  import opened JsString
  import opened EmailRule
  import opened BrowserState

  /** The keys of the `FieldErrs` interface. */
  datatype Field = Email | Nickname | FirstName | LastName | BirthDate | Password | PasswordRepeat | NonField

  type FieldErrs = map<Field, string>

  /** The form's controlled inputs. */
  datatype Form = Form(
    email: string,
    firstName: string,
    lastName: string,
    nickname: string,
    birthDate: string,
    password: string,
    passwordRepeat: string,
    agreed: bool)

  /** The message `runValidation` puts under each key. */
  function Message(f: Field): string {
    match f
    case Email => "Nieprawidłowy e-mail."
    case Nickname => "Min. 3 znaki."
    case FirstName => "Podaj imię."
    case LastName => "Podaj nazwisko."
    case BirthDate => "Podaj datę urodzenia."
    case Password => "Min. 8 znaków."
    case PasswordRepeat => "Hasła nie są zgodne."
    case NonField => "Zaakceptuj EULA."
  }

  const GenericError: string := "Wystąpił błąd rejestracji."

  const Fields: set<Field> := {Email, Nickname, FirstName, LastName, BirthDate, Password, PasswordRepeat, NonField}

  /** The check of `runValidation` guarding key `f`. */
  predicate Fails(form: Form, f: Field) {
    match f
    case Email => !ValidateEmail(form.email)
    case Nickname => |form.nickname| < 3
    case FirstName => Trim(form.firstName) == ""
    case LastName => Trim(form.lastName) == ""
    case BirthDate => form.birthDate == ""
    case Password => |form.password| < 8
    case PasswordRepeat => form.password != form.passwordRepeat
    case NonField => !form.agreed
  }

  /** The keys of the failed checks, each with its message. */
  function Collect(form: Form): FieldErrs {
    map f | f in Fields && Fails(form, f) :: Message(f)
  }

  /** `runValidation()`: a fresh object holding one key per failed check,
      each with its message. */
  function RunValidation(form: Form): (errs: FieldErrs)
    ensures Email in errs <==> !MatchesEmailPattern(form.email)
    ensures Nickname in errs <==> |form.nickname| < 3
    ensures FirstName in errs <==> AllSpace(form.firstName)
    ensures LastName in errs <==> AllSpace(form.lastName)
    ensures BirthDate in errs <==> form.birthDate == ""
    ensures Password in errs <==> |form.password| < 8
    ensures PasswordRepeat in errs <==> form.password != form.passwordRepeat
    ensures NonField in errs <==> !form.agreed
    ensures forall f :: f in errs ==> errs[f] == Message(f)
  {
    NameChecks(form);
    OtherChecks(form);
    Collect(form)
  }

  /** The address and name checks, read as conditions on the form. */
  lemma NameChecks(form: Form)
    ensures Email in Collect(form) <==> !MatchesEmailPattern(form.email)
    ensures FirstName in Collect(form) <==> AllSpace(form.firstName)
    ensures LastName in Collect(form) <==> AllSpace(form.lastName)
  {
    ValidateEmailIsPattern(form.email);
    TrimEmptyIff(form.firstName);
    TrimEmptyIff(form.lastName);
  }

  /** The remaining checks, and the messages. */
  lemma OtherChecks(form: Form)
    ensures Nickname in Collect(form) <==> |form.nickname| < 3
    ensures BirthDate in Collect(form) <==> form.birthDate == ""
    ensures Password in Collect(form) <==> |form.password| < 8
    ensures PasswordRepeat in Collect(form) <==> form.password != form.passwordRepeat
    ensures NonField in Collect(form) <==> !form.agreed
    ensures forall f :: f in Collect(form) ==> Collect(form)[f] == Message(f)
  {
  }

  /** `formValid`, which enables the submit button. */
  function FormValid(form: Form, loading: bool): (r: bool)
    ensures r <==>
      && MatchesEmailPattern(form.email)
      && |form.nickname| >= 3
      && !AllSpace(form.firstName) && !AllSpace(form.lastName)
      && form.birthDate != ""
      && |form.password| >= 8 && form.password == form.passwordRepeat
      && form.agreed
      && !loading
  {
    var errs := RunValidation(form);
    assert errs == map[] <==> forall f: Field :: f !in errs;
    errs == map[] && !loading
  }

  /** A value of the server's error body, as far as the mapping looks at it:
      an array (of messages) or anything else. */
  datatype Json = Array(items: seq<string>) | Other

  /** `Array.isArray(v) && v.length`. */
  predicate Usable(v: Json) {
    v.Array? && |v.items| > 0
  }

  /** Where a server key's first message goes: `email` and `nickname` to
      their own fields, every other key to `nonField`. */
  function Route(key: string): (f: Field)
    ensures f == Email <==> key == "email"
    ensures f == Nickname <==> key == "nickname"
    ensures f != Email && f != Nickname ==> f == NonField
  {
    if key == "email" then Email
    else if key == "nickname" then Nickname
    else NonField
  }

  /** The `forEach` callback on one `[key, value]` entry: a usable value
      puts its first message on the key's field; every other field, and
      everything when the value is not usable, stays as it was. */
  function Absorb(errs: FieldErrs, entry: (string, Json)): (r: FieldErrs)
    ensures Usable(entry.1) ==> Route(entry.0) in r && r[Route(entry.0)] == entry.1.items[0]
    ensures forall f :: (f != Route(entry.0) || !Usable(entry.1)) ==>
      (f in r <==> f in errs) && (f in errs ==> r[f] == errs[f])
  {
    if Usable(entry.1) then errs[Route(entry.0) := entry.1.items[0]] else errs
  }

  /** The field errors built from the entries of the error body, in order.
      Only `email`, `nickname` and `nonField` ever receive a server
      message. */
  function ServerErrors(entries: seq<(string, Json)>): (r: FieldErrs)
    ensures forall f :: f in r ==> f in {Email, Nickname, NonField}
  {
    if entries == [] then map[]
    else Absorb(ServerErrors(entries[..|entries| - 1]), entries[|entries| - 1])
  }

  /** The `Object.entries(data).forEach(...)` loop of the catch branch. */
  method MapServerErrors(entries: seq<(string, Json)>) returns (apiErrs: FieldErrs)
    ensures apiErrs == ServerErrors(entries)
  {
    apiErrs := map[];
    for i := 0 to |entries|
      invariant apiErrs == ServerErrors(entries[..i])
    {
      assert entries[..i + 1][..i] == entries[..i];
      apiErrs := Absorb(apiErrs, entries[i]);
    }
    assert entries[..|entries|] == entries;
  }

  /** The entry that decides field `f`: the last usable entry routed to it. */
  ghost predicate DecidedBy(entries: seq<(string, Json)>, f: Field, i: int) {
    && 0 <= i < |entries| && Usable(entries[i].1) && Route(entries[i].0) == f
    && forall j :: i < j < |entries| && Usable(entries[j].1) ==> Route(entries[j].0) != f
  }

  /** A field gets a server message exactly when some usable entry is
      routed to it. */
  lemma {:induction false} ServerErrorsKeys(entries: seq<(string, Json)>, f: Field)
    ensures f in ServerErrors(entries) <==>
      exists i :: 0 <= i < |entries| && Usable(entries[i].1) && Route(entries[i].0) == f
  {
    if entries != [] {
      var init := entries[..|entries| - 1];
      ServerErrorsKeys(init, f);
      if exists i :: 0 <= i < |init| && Usable(init[i].1) && Route(init[i].0) == f {
        var i :| 0 <= i < |init| && Usable(init[i].1) && Route(init[i].0) == f;
        assert entries[i] == init[i];
      }
      if exists i :: 0 <= i < |entries| && Usable(entries[i].1) && Route(entries[i].0) == f {
        var i :| 0 <= i < |entries| && Usable(entries[i].1) && Route(entries[i].0) == f;
        if i < |init| {
          assert init[i] == entries[i];
        }
      }
    }
  }

  /** The field holds the first message of the last usable entry routed to
      it: later keys overwrite earlier ones. */
  lemma {:induction false} ServerErrorsLastWins(entries: seq<(string, Json)>, f: Field, i: int)
    requires DecidedBy(entries, f, i)
    ensures f in ServerErrors(entries) && ServerErrors(entries)[f] == entries[i].1.items[0]
  {
    var init := entries[..|entries| - 1];
    if i < |init| {
      assert entries[i] == init[i];
      assert DecidedBy(init, f, i);
      ServerErrorsLastWins(init, f, i);
    }
  }

  /** How the two awaited calls of `handleSubmit` ended: both succeeded and
      the token call returned `access` and `refresh`; or one of them threw,
      with a truthy `err.response.data` (given by its entries) or without. */
  datatype Completion =
    | SignedUp(access: string, refresh: string)
    | Failed(data: Option<seq<(string, Json)>>)

  /** The page's state. */
  class RegisterPage {
    const browser: Browser
    var fieldErrs: FieldErrs
    var loading: bool

    constructor (browser: Browser)
      ensures this.browser == browser && fieldErrs == map[] && !loading
    {
      this.browser := browser;
      fieldErrs := map[];
      loading := false;
    }

    /** The synchronous part of `handleSubmit`, up to the first `await`.
        With errors they are stored and nothing is sent; otherwise `loading`
        is set and the registration request goes out. The old field errors
        stay on screen until the request settles. */
    method Submit(form: Form) returns (sent: bool)
      modifies this`fieldErrs, this`loading
      ensures sent <==> RunValidation(form) == map[]
      ensures !sent ==> fieldErrs == RunValidation(form) && loading == old(loading)
      ensures sent ==> fieldErrs == old(fieldErrs) && loading
    {
      var errs := RunValidation(form);
      if errs != map[] {
        fieldErrs := errs;
        return false;
      }
      loading := true;
      return true;
    }

    /** The rest of `handleSubmit`, once the requests have settled. On
        success only the two tokens are stored and the router goes to `/`;
        on failure the body's errors, or the generic message, replace the
        field errors. `loading` ends false either way. */
    method Complete(c: Completion)
      modifies this`fieldErrs, this`loading, browser`storage, browser`route
      ensures !loading
      ensures c.SignedUp? ==>
        && browser.storage == old(browser.storage)[AccessTokenKey := c.access][RefreshTokenKey := c.refresh]
        && browser.route == HomePath && fieldErrs == old(fieldErrs)
      ensures c.Failed? ==>
        && browser.storage == old(browser.storage) && browser.route == old(browser.route)
        && fieldErrs == (if c.data.Some? then ServerErrors(c.data.value) else map[NonField := GenericError])
    {
      match c {
        case SignedUp(access, refresh) =>
          browser.storage := browser.storage[AccessTokenKey := access];
          browser.storage := browser.storage[RefreshTokenKey := refresh];
          browser.route := HomePath;
        case Failed(data) =>
          if data.Some? {
            var apiErrs := MapServerErrors(data.value);
            fieldErrs := apiErrs;
          } else {
            fieldErrs := map[NonField := GenericError];
          }
      }
      loading := false;
    }
  }

  /** The submit gate and the button agree: a form goes out exactly when the
      button would be enabled while idle. */
  lemma SubmitGateIsFormValid(form: Form)
    ensures RunValidation(form) == map[] <==> FormValid(form, false)
  {
    var errs := RunValidation(form);
    if errs != map[] {
      var f :| f in errs;
    }
  }

  /** Registration never stores the nickname: the store's `nickname` entry is
      whatever it was before. */
  lemma SignUpKeepsNickname(storage: map<string, string>, access: string, refresh: string)
    ensures var s := storage[AccessTokenKey := access][RefreshTokenKey := refresh];
      && (NicknameKey in s <==> NicknameKey in storage)
      && (NicknameKey in storage ==> s[NicknameKey] == storage[NicknameKey])
  {
  }
}
