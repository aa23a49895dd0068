/** src/pages/Home.jsx: the public landing page, which lists the community's
    donations as cards. */
module Home {
  import opened Js
  import opened Http
  import ApiBase

  /** The landing page's base: VITE_API_URL or the local default, one
      trailing slash dropped, with no "/api" added and VITE_BACKEND_URL not
      consulted. */
  function HomeApi(env: ApiBase.Env): string {
    DropTrailingSlash(Or(env.viteApiUrl, ApiBase.DefaultApi))
  }

  function PublicUrl(env: ApiBase.Env): string {
    HomeApi(env) + "/donacion/public"
  }

  /** The landing page and the rest of the site agree on the base exactly
      when VITE_API_URL is set and already ends in "/api", or is unset along
      with VITE_BACKEND_URL. */
  lemma HomeApiVsApiBase(env: ApiBase.Env)
    ensures Truthy(env.viteApiUrl) ==> (HomeApi(env) == ApiBase.ApiBase(env) <==> EndsWith(HomeApi(env), "/api"))
    ensures !Truthy(env.viteApiUrl) && !Truthy(env.viteBackendUrl) ==> HomeApi(env) == ApiBase.ApiBase(env)
  {
    var h := HomeApi(env);
    if Truthy(env.viteApiUrl) {
      assert ApiBase.RawBase(env) == h;
      if !EndsWith(h, "/api") {
        assert |ApiBase.ApiBase(env)| == |h| + 4;
      }
    }
    if !Truthy(env.viteApiUrl) && !Truthy(env.viteBackendUrl) {
      assert EndsWith(ApiBase.DefaultApi, "/api");
    }
  }

  const LoadFallback := "No se pudieron cargar las donaciones"

  /** The picture on a donation's card. */
  datatype CardImage = Uploaded(url: string) | CashImage | ClothesImage | FoodImage | ToysImage

  /** A category mentions `word` once lower-cased; an absent category mentions nothing. */
  predicate Mentions(categoria: Option<string>, word: string) {
    categoria.Some? && Contains(ToLower(categoria.value), word)
  }

  function ImageOf(d: Donation): (r: CardImage)
    ensures Truthy(d.imagen) ==> r == Uploaded(d.imagen.value)
    ensures !Truthy(d.imagen) && d.tipo == Some("dinero") ==> r == CashImage
    ensures r == ClothesImage <==> !Truthy(d.imagen) && d.tipo != Some("dinero") && Mentions(d.categoria, "ropa")
    ensures r == FoodImage <==>
      !Truthy(d.imagen) && d.tipo != Some("dinero") && !Mentions(d.categoria, "ropa") && Mentions(d.categoria, "alimento")
    ensures r == ToysImage <==>
      !Truthy(d.imagen) && d.tipo != Some("dinero") && !Mentions(d.categoria, "ropa") && !Mentions(d.categoria, "alimento")
  {
    if Truthy(d.imagen) then Uploaded(d.imagen.value)
    else if d.tipo == Some("dinero") then CashImage
    else if Mentions(d.categoria, "ropa") then ClothesImage
    else if Mentions(d.categoria, "alimento") then FoodImage
    else ToysImage
  }

  /** A category naming both clothes and food shows clothes, in whatever
      case it is written; without an uploaded picture, a money donation
      shows cash whatever its category. */
  lemma ClothesBeforeFood(d: Donation)
    requires !Truthy(d.imagen) && d.tipo == Some("fisica") && d.categoria == Some("ROPA alimento")
    ensures Mentions(d.categoria, "ropa") && Mentions(d.categoria, "alimento")
    ensures ImageOf(d) == ClothesImage
    ensures ImageOf(d.(tipo := Some("dinero"))) == CashImage
  {
    var c := ToLower("ROPA alimento");
    assert c == "ropa alimento";
    assert StartsWith(c, "ropa");
    assert StartsWith(c[5..], "alimento");
    ContainsSuffix(c, 5, "alimento");
  }

  /** "Donante:": the donor's name, else the donation's own name, else "Anónimo". */
  function DonorLabel(d: Donation): string {
    if d.donante.Some? && Truthy(d.donante.value.nombre) then d.donante.value.nombre.value
    else Or(d.nombre, "Anónimo")
  }

  /** "Tipo:": `tipo`, else `tipoDonacion`, else "-". */
  function TipoLabel(d: Donation): string {
    Or3(d.tipo, d.tipoDonacion, "-")
  }

  /** "Categoría:": `categoria`, else "-". */
  function CategoryLabel(d: Donation): string {
    Or(d.categoria, "-")
  }

  /** The card's text: `descripcion`, else `comentarios`, else nothing. */
  function DescriptionText(d: Donation): string {
    Or3(d.descripcion, d.comentarios, "")
  }

  /** Every card shows a non-empty donor, kind and category, each taken
      from the first source that has one; the text under them is the
      description, else the comments, and empty only when both are. */
  lemma LabelsFallBack(d: Donation)
    ensures DonorLabel(d) != "" && TipoLabel(d) != ""
    ensures d.donante.Some? && Truthy(d.donante.value.nombre) ==> DonorLabel(d) == d.donante.value.nombre.value
    ensures !(d.donante.Some? && Truthy(d.donante.value.nombre)) && Truthy(d.nombre) ==> DonorLabel(d) == d.nombre.value
    ensures !(d.donante.Some? && Truthy(d.donante.value.nombre)) && !Truthy(d.nombre) ==> DonorLabel(d) == "Anónimo"
    ensures Truthy(d.tipo) ==> TipoLabel(d) == d.tipo.value
    ensures !Truthy(d.tipo) && Truthy(d.tipoDonacion) ==> TipoLabel(d) == d.tipoDonacion.value
    ensures !Truthy(d.tipo) && !Truthy(d.tipoDonacion) ==> TipoLabel(d) == "-"
    ensures CategoryLabel(d) != ""
    ensures CategoryLabel(d) == if Truthy(d.categoria) then d.categoria.value else "-"
    ensures DescriptionText(d) == "" <==> !Truthy(d.descripcion) && !Truthy(d.comentarios)
    ensures Truthy(d.descripcion) ==> DescriptionText(d) == d.descripcion.value
    ensures !Truthy(d.descripcion) && Truthy(d.comentarios) ==> DescriptionText(d) == d.comentarios.value
  {
  }

  /** What the donations section shows. */
  datatype View = LoadingView | ErrorView(message: string) | EmptyView | Cards(items: seq<Donation>)

  /** Loading wins over an error, an error over an empty list. */
  function ViewOf(loading: bool, errorMsg: string, donaciones: seq<Donation>): (v: View)
    ensures v.LoadingView? <==> loading
    ensures v.ErrorView? <==> !loading && errorMsg != ""
    ensures v.EmptyView? <==> !loading && errorMsg == "" && donaciones == []
    ensures v.Cards? ==> v.items == donaciones && donaciones != []
  {
    if loading then LoadingView
    else if errorMsg != "" then ErrorView(errorMsg)
    else if |donaciones| == 0 then EmptyView
    else Cards(donaciones)
  }

  class HomePage {
    var donaciones: seq<Donation>
    var loading: bool
    var errorMsg: string

    /** Mounting starts the fetch. */
    constructor()
      ensures donaciones == [] && loading && errorMsg == ""
    {
      donaciones := [];
      loading := true;
      errorMsg := "";
    }

    /** The fetch's answer. A bare array is not read: only `items`, else
        `donaciones`, else nothing. A failure empties the list. */
    method Loaded(resp: Outcome<ListBody>)
      modifies this
      ensures resp.Ok? ==> donaciones == ItemsOrDonaciones(resp.body) && errorMsg == ""
      ensures resp.Failed? ==> donaciones == [] && errorMsg == FailureText(resp, LoadFallback) && errorMsg != ""
      ensures !loading
      ensures resp.Failed? ==> ViewOf(loading, errorMsg, donaciones) == ErrorView(FailureText(resp, LoadFallback))
    {
      if resp.Ok? {
        donaciones := ItemsOrDonaciones(resp.body);
        errorMsg := "";
      } else {
        errorMsg := FailureText(resp, LoadFallback);
        donaciones := [];
      }
      loading := false;
    }
  }
}
