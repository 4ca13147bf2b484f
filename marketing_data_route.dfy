/**
 * The origin check of the marketing-data proxy endpoint: a request passes
 * when it has no origin, when its origin is one of the allowed origins
 * (compared as exact strings), or when the server runs in development mode.
 * A request that fails the check is answered with status 403 before any
 * upstream request is made.
 */
module MarketingDataRoute {
  import opened Dataset

  /** The allowed origins, exactly as listed; the second one ends in a slash. */
  const AllowedOrigins: seq<string> := ["http://localhost:3000", "https://amana-marketing-0000001.vercel.app/"]

  const DeployedOrigin := "https://amana-marketing-0000001.vercel.app"

  /** JavaScript falsiness of an optional string: absent (`null`) or empty. */
  predicate Falsy(s: Option<string>) {
    s.None? || s.value == ""
  }

  /** The origin check.  `origin` is the request's Origin header, absent when
      the header is missing; `nodeEnv` is the NODE_ENV environment variable,
      absent when unset. */
  function ValidateOrigin(origin: Option<string>, nodeEnv: Option<string>): (ok: bool)
    ensures nodeEnv == Some("development") ==> ok
    ensures origin.None? ==> ok
    ensures nodeEnv != Some("development") && origin.Some? && origin.value != "" ==>
      (ok <==> exists i :: 0 <= i < |AllowedOrigins| && AllowedOrigins[i] == origin.value)
  {
    Falsy(origin) || origin.value in AllowedOrigins || nodeEnv == Some("development")
  }

  /** What `GET` does after the check. */
  datatype Outcome =
    | Forbidden(status: int, error: string)
    | FetchUpstream

  /** The start of `GET`: a 403 answer with the CORS error when the check
      fails, otherwise on to the upstream fetch. */
  function Get(origin: Option<string>, nodeEnv: Option<string>): (r: Outcome)
    ensures r.Forbidden? <==> !ValidateOrigin(origin, nodeEnv)
    ensures r.Forbidden? ==> r.status == 403 && r.error == "Not allowed by CORS"
  {
    if !ValidateOrigin(origin, nodeEnv) then Forbidden(403, "Not allowed by CORS") else FetchUpstream
  }

  /** Only a non-empty origin outside the list can be refused, and only
      outside development mode. */
  lemma RefusedRequests(origin: Option<string>, nodeEnv: Option<string>)
    ensures Get(origin, nodeEnv).Forbidden? <==>
      origin.Some? && origin.value != "" && origin.value !in AllowedOrigins && nodeEnv != Some("development")
  {
  }

  /** An empty Origin header is treated like a missing one. */
  lemma EmptyOriginAccepted(nodeEnv: Option<string>)
    ensures ValidateOrigin(Some(""), nodeEnv)
    ensures Get(Some(""), nodeEnv) == FetchUpstream
  {
  }

  /** The local development origin is accepted in every mode. */
  lemma LocalhostAccepted(nodeEnv: Option<string>)
    ensures Get(Some("http://localhost:3000"), nodeEnv) == FetchUpstream
  {
  }

  /** The comparison is exact: the deployed site's origin, which a browser
      sends without a trailing slash, does not match the listed entry and is
      refused in production, while the listed string itself passes. */
  lemma DeployedOriginRefusedInProduction()
    ensures Get(Some(DeployedOrigin), Some("production")) == Forbidden(403, "Not allowed by CORS")
    ensures Get(Some(DeployedOrigin + "/"), Some("production")) == FetchUpstream
  {
    assert DeployedOrigin != AllowedOrigins[0] by {
      assert |DeployedOrigin| != |AllowedOrigins[0]|;
    }
    assert DeployedOrigin != AllowedOrigins[1] by {
      assert |DeployedOrigin| != |AllowedOrigins[1]|;
    }
    assert DeployedOrigin + "/" == AllowedOrigins[1];
  }

  /** In development mode nothing is refused. */
  lemma DevelopmentAcceptsAll(origin: Option<string>)
    ensures Get(origin, Some("development")) == FetchUpstream
  {
  }
}
