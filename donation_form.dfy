/** src/pages/DonationForm.jsx: the form a donor fills in to register a
    donation. Submitting validates the form, asks the similarity service
    whether a very similar description already exists, and then creates the
    donation. The request helper `apiFetch` is handed in by the dashboard;
    its results are inputs here. */
module DonationForm {
  import opened Js
  import opened Http
  import opened DonationSchema

  datatype Form = Form(
    tipo: string, categoria: string, descripcion: string, montoUsd: string,
    moneda: string, metodoPago: string, direccionEntrega: string, telefonoContacto: string)

  const InitialForm := Form(Goods, "", "", "", "usd", "stripe", "", "")

  /** The signed-in user's profile, as far as the form uses it. */
  datatype Profile = Profile(direccion: Option<string>, telefono: Option<string>)

  function Get(form: Form, f: DField): string {
    match f
    case Tipo => form.tipo
    case Categoria => form.categoria
    case Descripcion => form.descripcion
    case Moneda => form.moneda
    case MontoUsd => form.montoUsd
    case MetodoPago => form.metodoPago
    case DireccionEntrega => form.direccionEntrega
    case TelefonoContacto => form.telefonoContacto
  }

  /** `setField(name, value)`: only the named field changes. */
  function SetField(form: Form, f: DField, value: string): (r: Form)
    ensures Get(r, f) == value
    ensures forall g :: g != f ==> Get(r, g) == Get(form, g)
  {
    match f
    case Tipo => form.(tipo := value)
    case Categoria => form.(categoria := value)
    case Descripcion => form.(descripcion := value)
    case Moneda => form.(moneda := value)
    case MontoUsd => form.(montoUsd := value)
    case MetodoPago => form.(metodoPago := value)
    case DireccionEntrega => form.(direccionEntrega := value)
    case TelefonoContacto => form.(telefonoContacto := value)
  }

  /** The prefill effect: the profile's address and phone go into the
      delivery fields only where those are still empty. */
  function Prefilled(form: Form, user: Profile): (r: Form)
    ensures form.direccionEntrega != "" ==> r.direccionEntrega == form.direccionEntrega
    ensures form.telefonoContacto != "" ==> r.telefonoContacto == form.telefonoContacto
    ensures form.direccionEntrega == "" ==> r.direccionEntrega == Or(user.direccion, "")
    ensures form.telefonoContacto == "" ==> r.telefonoContacto == Or(user.telefono, "")
    ensures forall g :: g != DireccionEntrega && g != TelefonoContacto ==> Get(r, g) == Get(form, g)
  {
    form.(direccionEntrega := if form.direccionEntrega != "" then form.direccionEntrega else Or(user.direccion, ""),
          telefonoContacto := if form.telefonoContacto != "" then form.telefonoContacto else Or(user.telefono, ""))
  }

  /** What is validated: an empty amount is `undefined`, anything else goes
      through `Number`, given here as `toNumber` (`None` for `NaN`). */
  function ToInput(form: Form, toNumber: string -> Option<real>): DonationInput {
    var amount :=
      if form.montoUsd == "" then Absent
      else match toNumber(form.montoUsd)
        case None => NotANumber
        case Some(x) => Finite(x);
    DonationInput(form.tipo, form.categoria, form.descripcion, form.moneda, amount,
                  form.metodoPago, form.direccionEntrega, form.telefonoContacto)
  }

  /** The similarity threshold for a trimmed description whose `length` is `len`:
      short texts must be more alike to count as duplicates. */
  function Threshold(len: nat): real {
    if len <= 5 then 0.95 else if len <= 15 then 0.85 else 0.8
  }

  /** A longer description never gets a stricter threshold, and every
      threshold is one of the three levels. */
  lemma ThresholdNonIncreasing(a: nat, b: nat)
    requires a <= b
    ensures Threshold(b) <= Threshold(a)
    ensures Threshold(a) in {0.95, 0.85, 0.8}
    ensures 0.8 <= Threshold(b) <= Threshold(a) <= 0.95
  {
  }

  /** A match returned by the similarity service. */
  datatype Match = Match(text: Option<string>, score: Option<real>)

  /** `sim?.matches`, absent when the body is `null` or has no list. */
  datatype SimResponse = SimResponse(matches: Option<seq<Match>>)

  /** `Number(m.score || 0)`: a missing score counts as 0. */
  function Score(m: Match): real {
    if m.score.Some? then m.score.value else 0.0
  }

  function MatchesOf(sim: SimResponse): seq<Match> {
    if sim.matches.Some? then sim.matches.value else []
  }

  /** The matches scoring at least `t`, in the order returned. */
  function Similar(ms: seq<Match>, t: real): (r: seq<Match>)
    ensures forall m :: m in r ==> m in ms && Score(m) >= t
    ensures forall m :: m in ms && Score(m) >= t ==> m in r
  {
    if ms == [] then []
    else if Score(ms[0]) >= t then [ms[0]] + Similar(ms[1..], t)
    else Similar(ms[1..], t)
  }

  /** Creation is blocked when the service answered and listed a match at or
      above the threshold. */
  predicate Blocks(sim: Outcome<SimResponse>, t: real) {
    sim.Ok? && Similar(MatchesOf(sim.body), t) != []
  }

  /** Blocking happens exactly when some returned match reaches the
      threshold; a failed call never blocks. */
  lemma BlocksIff(sim: Outcome<SimResponse>, t: real)
    ensures Blocks(sim, t) <==> sim.Ok? && exists m :: m in MatchesOf(sim.body) && Score(m) >= t
    ensures sim.Failed? ==> !Blocks(sim, t)
  {
    if Blocks(sim, t) {
      var m := Similar(MatchesOf(sim.body), t)[0];
      assert m in Similar(MatchesOf(sim.body), t);
    }
  }

  /** The body of the creation request. Fields `submit` does not set are `None`. */
  datatype Payload = Payload(
    tipo: string, categoria: string, descripcion: string, moneda: string,
    monto: Option<int>, metodoPago: string,
    direccionEntrega: Option<string>, telefonoContacto: Option<string>)

  /** The payload of a submission. `toCents` is `moneyToCents`, which rounds
      a floating-point product and is not modelled. */
  function BuildPayload(form: Form, toCents: string -> int): Payload {
    var p := Payload(form.tipo, Trim(form.categoria), Trim(form.descripcion),
                     ToLower(if form.moneda != "" then form.moneda else "usd"), None, "", None, None);
    if form.tipo == Money then
      p.(monto := Some(toCents(form.montoUsd)),
         metodoPago := ToLower(if form.metodoPago != "" then form.metodoPago else "stripe"))
    else
      p.(metodoPago := "ninguno",
         direccionEntrega := Some(Trim(form.direccionEntrega)),
         telefonoContacto := Some(Trim(form.telefonoContacto)))
  }

  /** A form that passed validation gives a payload the server can take:
      known kind, trimmed description of `length` at least 3, trimmed
      category of `length` at most 120; a money donation carries an amount and one of
      the three payment methods and no delivery data; a goods donation
      carries "ninguno", no amount, and a non-empty trimmed delivery point
      and phone. */
  lemma ValidFormPayload(form: Form, toNumber: string -> Option<real>, toCents: string -> int)
    requires Validate(ToInput(form, toNumber)).None?
    ensures var p := BuildPayload(form, toCents);
      && (p.tipo == Goods || p.tipo == Money)
      && Length(p.descripcion) >= 3 && Trim(p.descripcion) == p.descripcion
      && Length(p.categoria) <= 120 && Trim(p.categoria) == p.categoria
      && (p.tipo == Money ==> p.monto.Some? && p.metodoPago in PaymentMethods
                              && p.direccionEntrega.None? && p.telefonoContacto.None?)
      && (p.tipo == Goods ==> p.monto.None? && p.metodoPago == "ninguno"
                              && p.direccionEntrega.Some? && p.direccionEntrega.value != ""
                              && p.telefonoContacto.Some? && p.telefonoContacto.value != "")
  {
    var v := ToInput(form, toNumber);
    ValidIff(v);
    TrimIdempotent(form.descripcion);
    TrimIdempotent(form.categoria);
    if form.tipo == Money {
      var m := form.metodoPago;
      assert m == "stripe" || m == "transferencia" || m == "efectivo";
      ToLowerKeepsLower(m);
    }
  }

  /** A form that passed validation always reaches the similarity check. */
  lemma ValidRunsSimilarity(form: Form, toNumber: string -> Option<real>)
    requires Validate(ToInput(form, toNumber)).None?
    ensures Length(Trim(form.descripcion)) >= 3
  {
    ValidIff(ToInput(form, toNumber));
  }

  /** After a creation without checkout, and on "Limpiar": category,
      description and amount are emptied and everything else is kept, so the
      kind, the payment method and the prefilled delivery data survive. */
  function Cleared(form: Form): (r: Form)
    ensures r.categoria == "" && r.descripcion == "" && r.montoUsd == ""
    ensures forall g :: g !in {Categoria, Descripcion, MontoUsd} ==> Get(r, g) == Get(form, g)
  {
    form.(categoria := "", descripcion := "", montoUsd := "")
  }

  /** A request sent by `submit`. */
  datatype Call =
    | SimilarityCall(text: string, topK: int, minScore: real)
    | CreateCall(payload: Payload)

  /** The creation response: `res?.checkoutUrl`. */
  datatype Created = Created(checkoutUrl: Option<string>)

  /** How a submission ended. */
  datatype SubmitResult =
    | Invalid(error: SchemaError)
    | Duplicate(similar: seq<Match>)
    | CreateFailed(message: string)
    | Checkout(url: string)
    | Registered

  const SubmitFallback := "Error al procesar la donación."

  class DonationFormPage {
    var form: Form
    var loading: bool
    /** How many times `onCreated` was called. */
    var createdCount: nat

    /** First render, then the prefill effect when a user is signed in. */
    constructor(user: Option<Profile>)
      ensures form == if user.Some? then Prefilled(InitialForm, user.value) else InitialForm
      ensures !loading && createdCount == 0
    {
      form := if user.Some? then Prefilled(InitialForm, user.value) else InitialForm;
      loading := false;
      createdCount := 0;
    }

    method Prefill(user: Profile)
      modifies this
      ensures form == Prefilled(old(form), user)
      ensures loading == old(loading) && createdCount == old(createdCount)
    {
      form := Prefilled(form, user);
    }

    method Edit(f: DField, value: string)
      modifies this
      ensures form == SetField(old(form), f, value)
      ensures loading == old(loading) && createdCount == old(createdCount)
    {
      form := SetField(form, f, value);
    }

    /** The "Limpiar" button. */
    method Clear()
      modifies this
      ensures form == Cleared(old(form))
      ensures loading == old(loading) && createdCount == old(createdCount)
    {
      form := Cleared(form);
    }

    /** `submit`: validate, check similarity, create. `sim` is the answer of
        the similarity service and `created` that of the creation request,
        each used only if that request is sent. */
    method Submit(toNumber: string -> Option<real>, toCents: string -> int,
                  sim: Outcome<SimResponse>, created: Outcome<Created>)
      returns (result: SubmitResult, calls: seq<Call>)
      modifies this
      ensures var v := ToInput(old(form), toNumber);
        && (result.Invalid? <==> Validate(v).Some?)
        && (result.Invalid? ==> result.error == Validate(v).value && calls == [])
      ensures var d := Trim(old(form).descripcion);
        !result.Invalid? ==> |calls| >= 1 && calls[0] == SimilarityCall(d, 3, Threshold(Length(d)))
      ensures var d := Trim(old(form).descripcion);
        result.Duplicate? <==> Validate(ToInput(old(form), toNumber)).None? && Blocks(sim, Threshold(Length(d)))
      ensures var d := Trim(old(form).descripcion);
        result.Duplicate? ==> calls == [calls[0]] && result.similar == Similar(MatchesOf(sim.body), Threshold(Length(d)))
      ensures !result.Invalid? && !result.Duplicate? ==>
        calls == [calls[0], CreateCall(BuildPayload(old(form), toCents))]
      ensures !result.Invalid? && !result.Duplicate? && created.Ok? ==>
        (result.Checkout? <==> Truthy(created.body.checkoutUrl))
      ensures result.CreateFailed? <==> !result.Invalid? && !result.Duplicate? && created.Failed?
      ensures result.CreateFailed? ==> result.message == Or(created.msg, SubmitFallback)
      ensures result.Checkout? ==> created.Ok? && Truthy(created.body.checkoutUrl)
                                   && result.url == created.body.checkoutUrl.value
      ensures form == if result.Registered? then Cleared(old(form)) else old(form)
      ensures createdCount == if result.Registered? then old(createdCount) + 1 else old(createdCount)
      ensures !loading
    {
      calls := [];
      var input := ToInput(form, toNumber);
      var failure := Validate(input);
      if failure.Some? {
        result := Invalid(failure.value);
        loading := false;
        return;
      }
      loading := true;
      var desc := Trim(form.descripcion);
      ValidRunsSimilarity(form, toNumber);
      if Length(desc) >= 3 {
        var threshold := Threshold(Length(desc));
        calls := calls + [SimilarityCall(desc, 3, threshold)];
        if sim.Ok? {
          var similares := Similar(MatchesOf(sim.body), threshold);
          if |similares| > 0 {
            result := Duplicate(similares);
            loading := false;
            return;
          }
        }
      }
      var payload := BuildPayload(form, toCents);
      calls := calls + [CreateCall(payload)];
      if created.Failed? {
        result := CreateFailed(Or(created.msg, SubmitFallback));
      } else if Truthy(created.body.checkoutUrl) {
        result := Checkout(created.body.checkoutUrl.value);
      } else {
        createdCount := createdCount + 1;
        form := Cleared(form);
        result := Registered;
      }
      loading := false;
    }
  }
}
