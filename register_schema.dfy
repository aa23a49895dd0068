/** src/validation/registerSchema.js: the yup schema of the sign-up form.
    Every field but `password` is trimmed before its tests run (yup applies
    the `trim()` transform first); the resolver collects every field's first
    failing test, in the order the tests are declared. The e-mail format test
    is yup's own regular expression, taken here as the parameter `isEmail`. */
module RegisterSchema {
  import opened Js

  datatype RegisterForm = RegisterForm(
    nombre: string, apellido: string, direccion: string,
    telefono: string, email: string, password: string)

  datatype Field = Nombre | Apellido | Direccion | Telefono | Email | Password

  /** A failed test of the schema. */
  datatype Rule = Required | PhoneFormat | EmailFormat | MinLength

  datatype FieldError = FieldError(field: Field, rule: Rule)

  /** The message the schema attaches to each failed test. */
  function Message(e: FieldError): string {
    match e
    case FieldError(Nombre, _) => "El nombre es obligatorio"
    case FieldError(Apellido, _) => "El apellido es obligatorio"
    case FieldError(Direccion, _) => "La dirección es obligatoria"
    case FieldError(Telefono, Required) => "El teléfono es obligatorio"
    case FieldError(Telefono, _) => "Teléfono inválido"
    case FieldError(Email, EmailFormat) => "Correo inválido"
    case FieldError(Email, _) => "El correo es obligatorio"
    case FieldError(Password, _) => "Mínimo 6 caracteres"
  }

  predicate IsDigit(c: char) {
    '0' <= c <= '9'
  }

  /** `/^[0-9]{6,15}$/`. */
  predicate PhonePattern(t: string) {
    6 <= |t| <= 15 && forall i :: 0 <= i < |t| ==> IsDigit(t[i])
  }

  const Fields := [Nombre, Apellido, Direccion, Telefono, Email, Password]

  /** The first failing test of one field, in declaration order. `email()`
      skips the empty string, so an empty e-mail fails `required`; `min(6)`
      comes before `required` on the untrimmed password. */
  function FirstFailure(form: RegisterForm, f: Field, isEmail: string -> bool): Option<Rule> {
    match f
    case Nombre => if Trim(form.nombre) == "" then Some(Required) else None
    case Apellido => if Trim(form.apellido) == "" then Some(Required) else None
    case Direccion => if Trim(form.direccion) == "" then Some(Required) else None
    case Telefono =>
      var t := Trim(form.telefono);
      if t == "" then Some(Required) else if !PhonePattern(t) then Some(PhoneFormat) else None
    case Email =>
      var t := Trim(form.email);
      if t != "" && !isEmail(t) then Some(EmailFormat) else if t == "" then Some(Required) else None
    case Password => if Length(form.password) < 6 then Some(MinLength) else None
  }

  /** The errors of the given fields, one per failing field, in order. */
  function ErrorsOf(form: RegisterForm, fs: seq<Field>, isEmail: string -> bool): (r: seq<FieldError>)
    ensures |r| <= |fs|
    ensures (forall i, j :: 0 <= i < j < |fs| ==> fs[i] != fs[j]) ==>
      forall i, j :: 0 <= i < j < |r| ==> r[i].field != r[j].field
    ensures forall e :: e in r ==> e.field in fs && FirstFailure(form, e.field, isEmail) == Some(e.rule)
  {
    if fs == [] then []
    else
      var rest := ErrorsOf(form, fs[1..], isEmail);
      match FirstFailure(form, fs[0], isEmail)
      case Some(rule) => [FieldError(fs[0], rule)] + rest
      case None => rest
  }

  /** What the resolver reports for the whole form. */
  function Errors(form: RegisterForm, isEmail: string -> bool): seq<FieldError> {
    ErrorsOf(form, Fields, isEmail)
  }

  predicate Valid(form: RegisterForm, isEmail: string -> bool) {
    Errors(form, isEmail) == []
  }

  /** The values the submit handler receives: the schema's cast, which trims
      every field but the password. */
  function Cast(form: RegisterForm): RegisterForm {
    form.(nombre := Trim(form.nombre), apellido := Trim(form.apellido), direccion := Trim(form.direccion),
          telefono := Trim(form.telefono), email := Trim(form.email))
  }

  /** A field is reported exactly when one of its tests fails. */
  lemma {:induction false} ErrorsOfComplete(form: RegisterForm, fs: seq<Field>, isEmail: string -> bool, f: Field)
    requires f in fs
    ensures FirstFailure(form, f, isEmail).Some? <==> exists e :: e in ErrorsOf(form, fs, isEmail) && e.field == f
  {
    if fs[0] != f {
      ErrorsOfComplete(form, fs[1..], isEmail, f);
    } else if FirstFailure(form, f, isEmail).Some? {
      assert FieldError(f, FirstFailure(form, f, isEmail).value) in ErrorsOf(form, fs, isEmail);
    }
  }

  /** The form is valid exactly when all six field rules hold: names and
      address non-blank after trimming, the trimmed phone 6 to 15 ASCII
      digits, the trimmed e-mail non-empty and well-formed, and the untrimmed
      password at least 6 UTF-16 code units long (JavaScript's `length`). */
  lemma ValidIff(form: RegisterForm, isEmail: string -> bool)
    ensures Valid(form, isEmail) <==>
      && Trim(form.nombre) != ""
      && Trim(form.apellido) != ""
      && Trim(form.direccion) != ""
      && PhonePattern(Trim(form.telefono))
      && Trim(form.email) != "" && isEmail(Trim(form.email))
      && Length(form.password) >= 6
  {
    NoErrorsIff(form, Fields, isEmail);
    assert Fields[0] == Nombre && Fields[1] == Apellido && Fields[2] == Direccion;
    assert Fields[3] == Telefono && Fields[4] == Email && Fields[5] == Password;
  }

  /** No error is reported exactly when no field has a failing test. */
  lemma {:induction false} NoErrorsIff(form: RegisterForm, fs: seq<Field>, isEmail: string -> bool)
    ensures ErrorsOf(form, fs, isEmail) == [] <==> forall i :: 0 <= i < |fs| ==> FirstFailure(form, fs[i], isEmail).None?
  {
    if fs != [] {
      NoErrorsIff(form, fs[1..], isEmail);
      assert forall i :: 1 <= i < |fs| ==> fs[i] == fs[1..][i - 1];
    }
  }

  /** The password is not trimmed: six spaces pass its rule although a name
      of six spaces is blank. */
  lemma PasswordSpacesCount()
    ensures FirstFailure(RegisterForm("      ", "", "", "", "", "      "), Password, _ => true).None?
    ensures FirstFailure(RegisterForm("      ", "", "", "", "", "      "), Nombre, _ => true) == Some(Required)
  {
    assert Trim("      ") == "";
  }

  /** `min(6)` counts UTF-16 code units: five characters ending in an emoji
      make a long enough password, four letters do not. */
  lemma PasswordCountsCodeUnits()
    ensures FirstFailure(RegisterForm("", "", "", "", "", "abcd\U{1F600}"), Password, _ => true).None?
    ensures FirstFailure(RegisterForm("", "", "", "", "", "abcde"), Password, _ => true) == Some(MinLength)
  {
    EmojiCountsTwice();
    LengthOfBasicPlane("abcde");
  }

  /** A phone number surrounded by spaces passes once trimmed, and the value
      handed on is the trimmed one. */
  lemma PhoneIsTrimmedFirst()
    ensures PhonePattern(Trim(" 123456 "))
    ensures Cast(RegisterForm("a", "b", "c", " 123456 ", "d", "secret")).telefono == "123456"
  {
    var p := " 123456 ";
    assert TrimStart(p) == p[1..] by {
      assert IsSpace(p[0]) && !IsSpace(p[1..][0]);
    }
    var q := p[1..];
    assert TrimEnd(q) == q[..|q| - 1] by {
      assert IsSpace(q[|q| - 1]) && !IsSpace(q[..|q| - 1][|q| - 2]);
    }
    assert q[..|q| - 1] == "123456";
  }
}
