/** src/validation/donationSchema.js: the yup schema of a new donation. Some
    rules depend on `tipo`: a money donation needs a positive amount and a
    payment method, a goods donation a delivery point and a contact phone.
    Validation stops at the first failing test. */
module DonationSchema {
  import opened Js

  datatype DField =
    Tipo | Categoria | Descripcion | Moneda | MontoUsd | MetodoPago | DireccionEntrega | TelefonoContacto

  /** The amount as the form hands it over: `undefined` for an empty input,
      otherwise the result of `Number(...)`, which may be `NaN`. */
  datatype Amount = Absent | NotANumber | Finite(value: real)

  datatype DonationInput = DonationInput(
    tipo: string, categoria: string, descripcion: string, moneda: string,
    montoUsd: Amount, metodoPago: string, direccionEntrega: string, telefonoContacto: string)

  /** A failed test: a value outside the allowed list, a missing value, a
      string too short or too long, a non-positive amount, a non-number. */
  datatype DRule = OneOf | Required | Min | Max | Positive | NotNumber

  datatype SchemaError = SchemaError(field: DField, rule: DRule)

  const Money := "dinero"
  const Goods := "fisica"
  const PaymentMethods := ["stripe", "transferencia", "efectivo"]

  /** The message the schema gives for a failed test; `None` where it keeps
      yup's generated message. */
  function Message(e: SchemaError): Option<string> {
    match e
    case SchemaError(Tipo, Required) => Some("El tipo es obligatorio")
    case SchemaError(Categoria, Max) => Some("Máx 120 caracteres")
    case SchemaError(Descripcion, Required) => Some("La descripción es obligatoria")
    case SchemaError(Descripcion, Min) => Some("Mínimo 3 caracteres")
    case SchemaError(MontoUsd, NotNumber) => Some("Monto inválido")
    case SchemaError(MontoUsd, Positive) => Some("Debe ser mayor a 0")
    case SchemaError(MontoUsd, Required) => Some("El monto es requerido")
    case SchemaError(DireccionEntrega, Required) => Some("La dirección es obligatoria")
    case SchemaError(TelefonoContacto, Required) => Some("El teléfono es obligatorio")
    case _ => None
  }

  /** The first failing test of one field, in the order the schema declares
      them. The type check of a number comes before every other test of it;
      `positive` ignores an absent amount, which then fails `required`. */
  function FieldFailure(v: DonationInput, f: DField): Option<DRule> {
    match f
    case Tipo => if v.tipo !in [Goods, Money] then Some(OneOf) else None
    case Categoria => if Length(Trim(v.categoria)) > 120 then Some(Max) else None
    case Descripcion =>
      var d := Trim(v.descripcion);
      if d == "" then Some(Required) else if Length(d) < 3 then Some(Min) else None
    case Moneda => if Length(Trim(v.moneda)) > 10 then Some(Max) else None
    case MontoUsd =>
      if v.montoUsd.NotANumber? then Some(NotNumber)
      else if v.tipo != Money then None
      else if v.montoUsd.Finite? && v.montoUsd.value <= 0.0 then Some(Positive)
      else if v.montoUsd.Absent? then Some(Required)
      else None
    case MetodoPago =>
      if v.tipo == Money && v.metodoPago !in PaymentMethods then Some(OneOf) else None
    case DireccionEntrega =>
      if v.tipo == Goods && Trim(v.direccionEntrega) == "" then Some(Required) else None
    case TelefonoContacto =>
      if v.tipo == Goods && Trim(v.telefonoContacto) == "" then Some(Required) else None
  }

  const Fields := [Tipo, Categoria, Descripcion, Moneda, MontoUsd, MetodoPago, DireccionEntrega, TelefonoContacto]

  /** The first failure among `fs`, scanning them in order. */
  function FirstError(v: DonationInput, fs: seq<DField>): (r: Option<SchemaError>)
    ensures r.Some? ==> r.value.field in fs && FieldFailure(v, r.value.field) == Some(r.value.rule)
    ensures r.None? <==> forall i :: 0 <= i < |fs| ==> FieldFailure(v, fs[i]).None?
  {
    if fs == [] then None
    else match FieldFailure(v, fs[0])
      case Some(rule) => Some(SchemaError(fs[0], rule))
      case None => FirstError(v, fs[1..])
  }

  /** `donationSchema.validate(v, { abortEarly: true })`: `None` when the
      input passes, otherwise the one failure reported. */
  function Validate(v: DonationInput): Option<SchemaError> {
    FirstError(v, Fields)
  }

  /** The rules written out: a donation passes exactly when its kind is one
      of the two, the trimmed category has a `length` of at most 120 (UTF-16
      code units), the trimmed description at least 3, the trimmed currency
      at most 10, the
      amount is a number if given, a money donation has a positive amount
      and a known payment method, and a goods donation a delivery point and
      a phone that are not blank. */
  lemma ValidIff(v: DonationInput)
    ensures Validate(v).None? <==>
      && (v.tipo == Goods || v.tipo == Money)
      && Length(Trim(v.categoria)) <= 120
      && Length(Trim(v.descripcion)) >= 3
      && Length(Trim(v.moneda)) <= 10
      && !v.montoUsd.NotANumber?
      && (v.tipo == Money ==> v.montoUsd.Finite? && v.montoUsd.value > 0.0 && v.metodoPago in PaymentMethods)
      && (v.tipo == Goods ==> !Blank(v.direccionEntrega) && !Blank(v.telefonoContacto))
  {
    EveryFieldPasses(v);
    assert FieldFailure(v, Tipo).None? <==> v.tipo == Goods || v.tipo == Money;
    assert FieldFailure(v, Descripcion).None? <==> Length(Trim(v.descripcion)) >= 3;
  }

  lemma EveryFieldPasses(v: DonationInput)
    ensures Validate(v).None? <==>
      && FieldFailure(v, Tipo).None? && FieldFailure(v, Categoria).None?
      && FieldFailure(v, Descripcion).None? && FieldFailure(v, Moneda).None?
      && FieldFailure(v, MontoUsd).None? && FieldFailure(v, MetodoPago).None?
      && FieldFailure(v, DireccionEntrega).None? && FieldFailure(v, TelefonoContacto).None?
  {
    assert Fields[0] == Tipo && Fields[1] == Categoria && Fields[2] == Descripcion && Fields[3] == Moneda;
    assert Fields[4] == MontoUsd && Fields[5] == MetodoPago && Fields[6] == DireccionEntrega && Fields[7] == TelefonoContacto;
  }

  /** The reported failure is the first one in declaration order: its test
      fails and every field declared before it passes. */
  lemma {:induction false} ReportsFirstFailure(v: DonationInput, fs: seq<DField>, i: nat)
    requires FirstError(v, fs).Some?
    requires i < |fs| && fs[i] == FirstError(v, fs).value.field
    requires forall j, k :: 0 <= j < k < |fs| ==> fs[j] != fs[k]
    ensures forall j :: 0 <= j < i ==> FieldFailure(v, fs[j]).None?
  {
    if FieldFailure(v, fs[0]).None? {
      assert i > 0;
      assert fs[1..][i - 1] == fs[i];
      ReportsFirstFailure(v, fs[1..], i - 1);
      assert forall j :: 1 <= j < i ==> fs[j] == fs[1..][j - 1];
    } else {
      assert i == 0;
    }
  }

  /** Rules conditional on one kind do not constrain the other: without an
      amount or a payment method, a goods donation passes those fields; a
      money donation passes with no delivery point or phone. */
  lemma ConditionalFieldsAreFree(v: DonationInput)
    ensures v.tipo == Goods && !v.montoUsd.NotANumber? ==> FieldFailure(v, MontoUsd).None? && FieldFailure(v, MetodoPago).None?
    ensures v.tipo == Money ==> FieldFailure(v, DireccionEntrega).None? && FieldFailure(v, TelefonoContacto).None?
  {
  }

  /** An amount that is not a number fails whatever the kind, with the
      schema's own message. */
  lemma NotANumberAlwaysFails(v: DonationInput)
    requires v.montoUsd.NotANumber?
    ensures Validate(v).Some?
    ensures FieldFailure(v, MontoUsd) == Some(NotNumber)
    ensures Message(SchemaError(MontoUsd, NotNumber)) == Some("Monto inválido")
  {
    assert MontoUsd in Fields;
  }
}
