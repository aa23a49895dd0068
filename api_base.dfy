/** src/lib/apiBase.js: the one place that derives the REST base (`API_BASE`)
    and the socket base (`SOCKET_BASE`) from the build environment. */
module ApiBase {
  import opened Js

  /** The `import.meta.env` variables the front-end reads; unset is `None`. */
  datatype Env = Env(viteApiUrl: Option<string>, viteBackendUrl: Option<string>, viteAdminSecret: Option<string>)

  const DefaultApi := "http://localhost:4000/api"

  /** `RAW_BASE`: the first truthy of VITE_API_URL, VITE_BACKEND_URL and the
      local default, with one trailing slash dropped. */
  function RawBase(env: Env): string {
    DropTrailingSlash(Or3(env.viteApiUrl, env.viteBackendUrl, DefaultApi))
  }

  /** The `API_BASE` rule: keep a base that ends in "/api", else append "/api". */
  function WithApiSuffix(raw: string): string {
    if EndsWith(raw, "/api") then raw else raw + "/api"
  }

  function ApiBase(env: Env): string {
    WithApiSuffix(RawBase(env))
  }

  /** `API_BASE.slice(0, -4)`. */
  function SocketBase(env: Env): string {
    var api := ApiBase(env);
    if |api| >= 4 then api[..|api| - 4] else ""
  }

  /** `replace(/\/$/, "")` removes exactly one trailing slash when there is
      one: "x//" becomes "x/", not "x". */
  lemma DropTrailingSlashOnce(s: string)
    ensures EndsWith(s, "/") ==> DropTrailingSlash(s) + "/" == s
    ensures !EndsWith(s, "/") ==> DropTrailingSlash(s) == s
    ensures |DropTrailingSlash(s)| >= |s| - 1
  {
  }

  /** `RAW_BASE` comes from the first truthy source, in the order VITE_API_URL,
      VITE_BACKEND_URL, default. */
  lemma RawBaseSource(env: Env)
    ensures Truthy(env.viteApiUrl) ==> RawBase(env) == DropTrailingSlash(env.viteApiUrl.value)
    ensures !Truthy(env.viteApiUrl) && Truthy(env.viteBackendUrl) ==> RawBase(env) == DropTrailingSlash(env.viteBackendUrl.value)
    ensures !Truthy(env.viteApiUrl) && !Truthy(env.viteBackendUrl) ==> RawBase(env) == "http://localhost:4000/api"
  {
  }

  /** `API_BASE` always ends in "/api"; it is `RAW_BASE` itself when that
      already does, and `RAW_BASE` + "/api" otherwise. */
  lemma ApiBaseEndsWithApi(env: Env)
    ensures EndsWith(ApiBase(env), "/api")
    ensures EndsWith(RawBase(env), "/api") <==> ApiBase(env) == RawBase(env)
    ensures !EndsWith(RawBase(env), "/api") <==> ApiBase(env) == RawBase(env) + "/api"
  {
    var raw := RawBase(env);
    if !EndsWith(raw, "/api") {
      assert (raw + "/api")[|raw + "/api"| - 4..] == "/api";
      assert |raw + "/api"| != |raw|;
    }
  }

  /** `SOCKET_BASE` is `API_BASE` without its final "/api". */
  lemma SocketBaseAndApi(env: Env)
    ensures SocketBase(env) + "/api" == ApiBase(env)
  {
    ApiBaseEndsWithApi(env);
  }

  /** Feeding `API_BASE` back in as VITE_API_URL yields `API_BASE` again. */
  lemma NormalisationIdempotent(env: Env)
    ensures ApiBase(Env(Some(ApiBase(env)), env.viteBackendUrl, env.viteAdminSecret)) == ApiBase(env)
  {
    ApiBaseEndsWithApi(env);
    var api := ApiBase(env);
    assert api[|api| - 1] == 'i';
    assert !EndsWith(api, "/");
  }

  /** With no variables set, the REST base is the local default and the socket
      base is the server root. */
  lemma DefaultBases()
    ensures ApiBase(Env(None, None, None)) == "http://localhost:4000/api"
    ensures SocketBase(Env(None, None, None)) == "http://localhost:4000"
  {
    var env := Env(None, None, None);
    assert RawBase(env) == DefaultApi;
    assert EndsWith(DefaultApi, "/api");
  }
}
