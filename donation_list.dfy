/** src/pages/DonationList.jsx: the donor's own donations, with delete, an
    edit panel and a chat per donation. Requests go through the dashboard's
    `apiFetch`; its results are inputs here, and every request sent is
    recorded in `calls`. */
module DonationList {
  import opened Js
  import opened Http

  /** The list the page keeps from a response: a bare array as it is,
      otherwise `items`, else `donaciones`, else empty. */
  function Normalize(b: ListBody): (r: seq<Donation>)
    ensures b.ArrayBody? ==> r == b.elems
    ensures b.ObjectBody? && b.items.Some? ==> r == b.items.value
    ensures b.ObjectBody? && b.items.None? && b.donaciones.Some? ==> r == b.donaciones.value
    ensures b.NullBody? || b == ObjectBody(None, None) ==> r == []
  {
    if b.ArrayBody? then b.elems else ItemsOrDonaciones(b)
  }

  /** `prev.filter((x) => x._id !== id)`. */
  function RemoveById(s: seq<Donation>, id: Option<string>): seq<Donation> {
    if s == [] then []
    else if s[0].id != id then [s[0]] + RemoveById(s[1..], id)
    else RemoveById(s[1..], id)
  }

  /** Exactly the entries carrying `id` go: each other entry keeps its number
      of occurrences, and none with `id` is left. */
  lemma {:induction false} RemoveByIdCounts(s: seq<Donation>, id: Option<string>, x: Donation)
    ensures multiset(RemoveById(s, id))[x] == if x.id == id then 0 else multiset(s)[x]
  {
    if s != [] {
      RemoveByIdCounts(s[1..], id, x);
      assert s == [s[0]] + s[1..];
    }
  }

  /** The entries that stay keep their relative order: removal from a
      concatenation is the concatenation of the removals. */
  lemma {:induction false} RemoveByIdConcat(a: seq<Donation>, b: seq<Donation>, id: Option<string>)
    ensures RemoveById(a + b, id) == RemoveById(a, id) + RemoveById(b, id)
  {
    if a != [] {
      RemoveByIdConcat(a[1..], b, id);
      assert (a + b)[1..] == a[1..] + b;
    } else {
      assert a + b == b;
    }
  }

  /** A list without the id is left as it is; removing twice is removing once. */
  lemma {:induction false} RemoveByIdAbsent(s: seq<Donation>, id: Option<string>)
    requires forall i :: 0 <= i < |s| ==> s[i].id != id
    ensures RemoveById(s, id) == s
  {
    if s != [] {
      RemoveByIdAbsent(s[1..], id);
    }
  }

  lemma RemoveByIdIdempotent(s: seq<Donation>, id: Option<string>)
    ensures RemoveById(RemoveById(s, id), id) == RemoveById(s, id)
  {
    var r := RemoveById(s, id);
    forall i | 0 <= i < |r| ensures r[i].id != id {
      RemoveByIdCounts(s, id, r[i]);
      assert r[i] in multiset(r);
    }
    RemoveByIdAbsent(r, id);
  }

  /** The four fields of the edit panel. */
  datatype EditForm = EditForm(categoria: string, descripcion: string, direccionEntrega: string, telefonoContacto: string)

  const EmptyEdit := EditForm("", "", "", "")

  /** `abrirEditar`'s copy of a donation: each field, or "" when absent or empty. */
  function EditFormOf(d: Donation): (r: EditForm)
    ensures Truthy(d.categoria) ==> r.categoria == d.categoria.value
    ensures Truthy(d.descripcion) ==> r.descripcion == d.descripcion.value
    ensures Truthy(d.direccionEntrega) ==> r.direccionEntrega == d.direccionEntrega.value
    ensures Truthy(d.telefonoContacto) ==> r.telefonoContacto == d.telefonoContacto.value
    ensures r.categoria == "" <==> !Truthy(d.categoria)
    ensures r.descripcion == "" <==> !Truthy(d.descripcion)
    ensures r.direccionEntrega == "" <==> !Truthy(d.direccionEntrega)
    ensures r.telefonoContacto == "" <==> !Truthy(d.telefonoContacto)
  {
    EditForm(Or(d.categoria, ""), Or(d.descripcion, ""), Or(d.direccionEntrega, ""), Or(d.telefonoContacto, ""))
  }

  /** `fmtMoney`'s result: a dash, or an amount in currency units with the
      upper-cased currency code. The locale formatting itself is not modelled. */
  datatype MoneyText = Dash | Formatted(amount: real, currency: string)

  function FmtMoney(cents: Option<int>, currency: Option<string>): (r: MoneyText)
    ensures r.Dash? <==> cents.None?
    ensures r.Formatted? ==> r.amount * 100.0 == cents.value as real
  {
    if cents.None? then Dash
    else Formatted(cents.value as real / 100.0, ToUpper(Or(currency, "USD")))
  }

  /** A request sent by the page. */
  datatype ListCall =
    | LoadMine
    | Delete(path: string)
    | Patch(path: string, body: EditForm)

  const LoadFallback := "No se pudo cargar donaciones"
  const DeleteFallback := "No se pudo eliminar"
  const UpdateFallback := "No se pudo actualizar"

  /** The request path of a donation: `/donacion/${id}`. */
  function DonationPath(id: Option<string>): string {
    "/donacion/" + Show(id)
  }

  class DonationListPage {
    var donaciones: seq<Donation>
    var loading: bool
    var selected: Option<Donation>
    var editForm: EditForm
    var calls: seq<ListCall>
    /** Error toasts, oldest first. */
    var errors: seq<string>

    /** First render: empty list, loading, nothing selected. */
    constructor()
      ensures donaciones == [] && loading && selected.None? && editForm == EmptyEdit
      ensures calls == [] && errors == []
    {
      donaciones := [];
      loading := true;
      selected := None;
      editForm := EmptyEdit;
      calls := [];
      errors := [];
    }

    /** `cargar`: fetch the donor's donations. A failure keeps the old list. */
    method Load(resp: Outcome<ListBody>)
      modifies this
      ensures calls == old(calls) + [LoadMine]
      ensures resp.Ok? ==> donaciones == Normalize(resp.body) && errors == old(errors)
      ensures resp.Failed? ==> donaciones == old(donaciones) && errors == old(errors) + [FailureText(resp, LoadFallback)]
      ensures !loading && selected == old(selected) && editForm == old(editForm)
    {
      loading := true;
      calls := calls + [LoadMine];
      if resp.Ok? {
        donaciones := Normalize(resp.body);
      } else {
        errors := errors + [FailureText(resp, LoadFallback)];
      }
      loading := false;
    }

    /** `eliminar(id)`: nothing at all unless the user confirms; a
        successful delete drops the entries carrying `id`. */
    method Remove(id: Option<string>, confirmed: bool, resp: Outcome<()>)
      modifies this
      ensures !confirmed ==> donaciones == old(donaciones) && calls == old(calls) && errors == old(errors)
      ensures confirmed ==> calls == old(calls) + [Delete(DonationPath(id))]
      ensures confirmed && resp.Ok? ==> donaciones == RemoveById(old(donaciones), id) && errors == old(errors)
      ensures confirmed && resp.Failed? ==>
        donaciones == old(donaciones) && errors == old(errors) + [FailureText(resp, DeleteFallback)]
      ensures loading == old(loading) && selected == old(selected) && editForm == old(editForm)
    {
      if !confirmed {
        return;
      }
      calls := calls + [Delete(DonationPath(id))];
      if resp.Ok? {
        donaciones := RemoveById(donaciones, id);
      } else {
        errors := errors + [FailureText(resp, DeleteFallback)];
      }
    }

    /** `abrirEditar(d)`. */
    method OpenEdit(d: Donation)
      modifies this
      ensures selected == Some(d) && editForm == EditFormOf(d)
      ensures donaciones == old(donaciones) && loading == old(loading)
      ensures calls == old(calls) && errors == old(errors)
    {
      selected := Some(d);
      editForm := EditFormOf(d);
    }

    /** The "Cancelar" button of the edit panel. */
    method CancelEdit()
      modifies this
      ensures selected.None? && editForm == EmptyEdit
      ensures donaciones == old(donaciones) && loading == old(loading)
      ensures calls == old(calls) && errors == old(errors)
    {
      selected := None;
      editForm := EmptyEdit;
    }

    /** `guardarEdicion`: send the panel's fields for the selected donation
        (the path reads "undefined" when none is selected); on success close
        the panel and reload with `reload`. The panel's fields are kept. */
    method SaveEdit(resp: Outcome<()>, reload: Outcome<ListBody>)
      modifies this
      ensures var path := DonationPath(if old(selected).Some? then old(selected).value.id else None);
        resp.Ok? ==> calls == old(calls) + [Patch(path, old(editForm)), LoadMine]
      ensures var path := DonationPath(if old(selected).Some? then old(selected).value.id else None);
        resp.Failed? ==> calls == old(calls) + [Patch(path, old(editForm))]
      ensures resp.Ok? ==> selected.None? && !loading
      ensures resp.Ok? && reload.Ok? ==> donaciones == Normalize(reload.body) && errors == old(errors)
      ensures resp.Ok? && reload.Failed? ==>
        donaciones == old(donaciones) && errors == old(errors) + [FailureText(reload, LoadFallback)]
      ensures resp.Failed? ==> selected == old(selected) && donaciones == old(donaciones)
                               && loading == old(loading) && errors == old(errors) + [FailureText(resp, UpdateFallback)]
      ensures editForm == old(editForm)
    {
      var id := if selected.Some? then selected.value.id else None;
      calls := calls + [Patch(DonationPath(id), editForm)];
      if resp.Failed? {
        errors := errors + [FailureText(resp, UpdateFallback)];
        return;
      }
      selected := None;
      Load(reload);
    }
  }
}
