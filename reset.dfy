/** src/pages/Reset.jsx: the page a password-reset link opens. It verifies
    the link's token with the back-end when it mounts (and again whenever the
    token changes), and shows the new-password form once the token is known
    to be valid. */
module Reset {
  import opened Js
  import opened Http
  import opened Roles
  import ApiBase

  /** The URL that checks a reset token for a role. */
  function VerifyUrl(apiBase: string, role: string, token: string): string {
    apiBase + Segment(role) + "/recuperarpassword/" + token
  }

  /** The URL that sets the new password for a role. */
  function NewPasswordUrl(apiBase: string, role: string, token: string): string {
    apiBase + Segment(role) + "/nuevopassword/" + token
  }

  /** Both URLs end with the token; the three roles reach three different
      endpoints, and any other role reaches the donor's. */
  lemma UrlsShareRoleAndToken(apiBase: string, role: string, other: string, token: string)
    ensures KnownRole(role) && KnownRole(other) && role != other ==>
      VerifyUrl(apiBase, role, token) != VerifyUrl(apiBase, other, token)
      && NewPasswordUrl(apiBase, role, token) != NewPasswordUrl(apiBase, other, token)
    ensures EndsWith(VerifyUrl(apiBase, role, token), token) && EndsWith(NewPasswordUrl(apiBase, role, token), token)
    ensures !KnownRole(role) ==> VerifyUrl(apiBase, role, token) == VerifyUrl(apiBase, "donante", token)
  {
    var v := VerifyUrl(apiBase, role, token);
    assert v[|v| - |token|..] == token;
    var n := NewPasswordUrl(apiBase, role, token);
    assert n[|n| - |token|..] == token;
    if KnownRole(role) && KnownRole(other) && role != other {
      assert |Segment(role)| != |Segment(other)|;
    }
  }

  /** Why `handleSubmit` refused the two passwords. */
  datatype Refusal = BothRequired | Mismatch | TooShort

  function RefusalMessage(r: Refusal): string {
    match r
    case BothRequired => "Debes completar ambos campos de contraseña."
    case Mismatch => "Las contraseñas no coinciden."
    case TooShort => "La contraseña debe tener al menos 6 caracteres."
  }

  /** The guards of `handleSubmit`, in their order. */
  function CheckPasswords(p1: string, p2: string): Option<Refusal> {
    if p1 == "" || p2 == "" then Some(BothRequired)
    else if p1 != p2 then Some(Mismatch)
    else if Length(p1) < 6 then Some(TooShort)
    else None
  }

  /** The passwords are accepted exactly when both are given, they match and
      their `length` is at least 6 UTF-16 code units; an empty field is reported before a
      mismatch, and a mismatch before a short password. */
  lemma CheckPasswordsIff(p1: string, p2: string)
    ensures CheckPasswords(p1, p2).None? <==> p1 != "" && p1 == p2 && Length(p1) >= 6
    ensures (p1 == "" || p2 == "") ==> CheckPasswords(p1, p2) == Some(BothRequired)
    ensures p1 != "" && p2 != "" && p1 != p2 ==> CheckPasswords(p1, p2) == Some(Mismatch)
    ensures CheckPasswords(p1, p2) == Some(TooShort) ==> p1 == p2 && 0 < Length(p2) < 6
  {
  }

  /** Five characters ending in an emoji have a `length` of 6 and pass. */
  lemma EmojiPasswordAccepted()
    ensures CheckPasswords("abcd\U{1F600}", "abcd\U{1F600}").None?
  {
    EmojiCountsTwice();
  }

  /** The JSON body of the new-password request. */
  datatype NewPasswordBody = NewPasswordBody(password: string, confirmpassword: string)

  datatype ResetCall =
    | VerifyCall(url: string)
    | NewPasswordCall(url: string, body: NewPasswordBody)

  const VerifyFallback := "Enlace inválido o expirado."
  const VerifiedText := "Token válido, ahora puedes cambiar tu contraseña."
  const UpdateFallback := "No se pudo actualizar la contraseña."
  const UpdatedText := "Contraseña actualizada correctamente."

  class ResetPage {
    const apiBase: string
    var token: string
    var role: string
    /** `null` while unknown, then whether the last finished check accepted the token. */
    var tokenValid: Option<bool>
    var loadingVerify: bool
    var loadingSubmit: bool
    var password: string
    var password2: string
    /** Verifications sent whose answer has not arrived. */
    var pendingVerifies: nat
    var calls: seq<ResetCall>
    /** Toasts shown, oldest first. */
    var toasts: seq<string>
    /** Whether the redirect to "/login" has been scheduled. */
    var toLogin: bool

    /** Mounting: the role starts as "donante" and the verification effect
        sends its request at once, so the token is checked on the donor path. */
    constructor(env: ApiBase.Env, token: string)
      ensures apiBase == ApiBase.ApiBase(env) && this.token == token && role == "donante"
      ensures tokenValid.None? && loadingVerify && !loadingSubmit
      ensures password == "" && password2 == "" && pendingVerifies == 1
      ensures calls == [VerifyCall(VerifyUrl(ApiBase.ApiBase(env), "donante", token))]
      ensures toasts == [] && !toLogin
    {
      apiBase := ApiBase.ApiBase(env);
      this.token := token;
      role := "donante";
      tokenValid := None;
      loadingVerify := true;
      loadingSubmit := false;
      password := "";
      password2 := "";
      pendingVerifies := 1;
      calls := [VerifyCall(VerifyUrl(ApiBase.ApiBase(env), "donante", token))];
      toasts := [];
      toLogin := false;
    }

    /** The new-password form is shown only for a valid token and while no
        verification is running. */
    predicate FormShown()
      reads this
    {
      tokenValid == Some(true) && !loadingVerify
    }

    /** Choosing a role: the verification effect depends on the token only,
        so nothing is re-verified. */
    method SetRole(r: string)
      modifies this
      ensures role == r
      ensures tokenValid == old(tokenValid) && loadingVerify == old(loadingVerify)
      ensures calls == old(calls) && pendingVerifies == old(pendingVerifies)
      ensures FormShown() == old(FormShown())
      ensures token == old(token) && password == old(password) && password2 == old(password2)
      ensures toasts == old(toasts) && toLogin == old(toLogin) && loadingSubmit == old(loadingSubmit)
    {
      role := r;
    }

    /** A new token in the route re-runs the verification with the role
        chosen at that moment. The previous verdict stays until the answer. */
    method ChangeToken(t: string)
      modifies this
      ensures token == t && role == old(role) && tokenValid == old(tokenValid)
      ensures loadingVerify && pendingVerifies == old(pendingVerifies) + 1
      ensures calls == old(calls) + [VerifyCall(VerifyUrl(apiBase, old(role), t))]
      ensures !FormShown()
      ensures password == old(password) && password2 == old(password2)
      ensures toasts == old(toasts) && toLogin == old(toLogin) && loadingSubmit == old(loadingSubmit)
    {
      token := t;
      loadingVerify := true;
      pendingVerifies := pendingVerifies + 1;
      calls := calls + [VerifyCall(VerifyUrl(apiBase, role, token))];
    }

    /** A verification answer arrives; `resp` carries the body's `msg`. */
    method VerifyAnswered(resp: Outcome<Option<string>>)
      requires pendingVerifies > 0
      modifies this
      ensures tokenValid == Some(resp.Ok?) && !loadingVerify
      ensures pendingVerifies == old(pendingVerifies) - 1
      ensures toasts == old(toasts) + [if resp.Ok? then Or(resp.body, VerifiedText) else FailureText(resp, VerifyFallback)]
      ensures FormShown() <==> resp.Ok?
      ensures calls == old(calls) && role == old(role) && token == old(token)
      ensures password == old(password) && password2 == old(password2)
      ensures toLogin == old(toLogin) && loadingSubmit == old(loadingSubmit)
    {
      pendingVerifies := pendingVerifies - 1;
      if resp.Ok? {
        tokenValid := Some(true);
        toasts := toasts + [Or(resp.body, VerifiedText)];
      } else {
        tokenValid := Some(false);
        toasts := toasts + [FailureText(resp, VerifyFallback)];
      }
      loadingVerify := false;
    }

    method SetPasswords(p1: string, p2: string)
      modifies this
      ensures password == p1 && password2 == p2
      ensures tokenValid == old(tokenValid) && loadingVerify == old(loadingVerify) && calls == old(calls)
      ensures role == old(role) && token == old(token) && toasts == old(toasts)
      ensures pendingVerifies == old(pendingVerifies) && toLogin == old(toLogin) && loadingSubmit == old(loadingSubmit)
    {
      password, password2 := p1, p2;
    }

    /** `handleSubmit`: the guards first; only accepted passwords are sent,
        to the current role's path, with the second field as the
        confirmation. Success schedules the redirect to "/login". */
    method Submit(resp: Outcome<Option<string>>)
      modifies this
      ensures var refusal := CheckPasswords(old(password), old(password2));
        refusal.Some? ==> calls == old(calls) && toasts == old(toasts) + [RefusalMessage(refusal.value)] && toLogin == old(toLogin)
      ensures CheckPasswords(old(password), old(password2)).None? ==>
        calls == old(calls) + [NewPasswordCall(NewPasswordUrl(apiBase, role, token), NewPasswordBody(old(password), old(password2)))]
      ensures CheckPasswords(old(password), old(password2)).None? && resp.Ok? ==>
        toasts == old(toasts) + [Or(resp.body, UpdatedText)] && toLogin
      ensures CheckPasswords(old(password), old(password2)).None? && resp.Failed? ==>
        toasts == old(toasts) + [FailureText(resp, UpdateFallback)] && toLogin == old(toLogin)
      ensures loadingSubmit == if CheckPasswords(old(password), old(password2)).Some? then old(loadingSubmit) else false
      ensures password == old(password) && password2 == old(password2) && role == old(role) && token == old(token)
      ensures tokenValid == old(tokenValid) && loadingVerify == old(loadingVerify)
      ensures pendingVerifies == old(pendingVerifies)
    {
      var refusal := CheckPasswords(password, password2);
      if refusal.Some? {
        toasts := toasts + [RefusalMessage(refusal.value)];
        return;
      }
      loadingSubmit := true;
      calls := calls + [NewPasswordCall(NewPasswordUrl(apiBase, role, token), NewPasswordBody(password, password2))];
      if resp.Ok? {
        toasts := toasts + [Or(resp.body, UpdatedText)];
        toLogin := true;
      } else {
        toasts := toasts + [FailureText(resp, UpdateFallback)];
      }
      loadingSubmit := false;
    }
  }
}
