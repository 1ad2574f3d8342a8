/**
 * The public redirect endpoint (`RedirectController`, GET "/{shortUrl}"):
 * a known code answers 302 Found with the original URL in `Location`
 * (section 15.4.3 of RFC 9110, with the header of section 10.2.2); an
 * unknown code answers 404 Not Found; a code saved twice makes the
 * service throw, which Spring turns into 500.
 */
module Redirect {
  import opened Common
  import opened Clicks
  import opened Service

  const Found302: int := 302
  const NotFound404: int := 404
  const ServerError500: int := 500

  /** A response without a body: its status and its `Location` header, if any. */
  datatype Response = Response(status: int, location: Option<string>)

  /** How `redirect` answers what `getOriginalUrl` returned. */
  function Respond(r: Fetched): (resp: Response)
    ensures resp.status == Found302 <==> r.Got?
    ensures resp.location.Some? <==> r.Got?
    ensures r.Got? ==> resp.location.value == r.mapping.originalUrl
    ensures r.Missing? <==> resp.status == NotFound404
    ensures r.Threw? <==> resp.status == ServerError500
  {
    match r
    case Got(m) => Response(Found302, Some(m.originalUrl))
    case Missing => Response(NotFound404, None)
    case Threw => Response(ServerError500, None)
  }

  /**
   * `redirect(code)` against the service: 302 to the stored URL exactly
   * when the code is saved once, and then exactly one click is recorded,
   * for that mapping, whose click count goes up by one while every other
   * field and every other mapping stay as they were; otherwise no redirect
   * and both stores are unchanged.
   */
  method HandleRedirect(service: UrlMappingService, code: string, now: DateTime) returns (resp: Response)
    requires service.Valid()
    modifies service
    ensures service.Valid() && service.nextId == old(service.nextId)
    ensures resp.status == Found302 <==> FindByShortUrl(old(service.mappings), code).Found?
    ensures resp.status == Found302 ==>
              var i := FindByShortUrl(old(service.mappings), code).index;
              && resp.location == Some(old(service.mappings)[i].originalUrl)
              && service.clicks == old(service.clicks) + [ClickEvent(now, old(service.mappings)[i].id)]
              && service.mappings == old(service.mappings)[i := old(service.mappings)[i].(clickCount := old(service.mappings)[i].clickCount + 1)]
    ensures resp.status == NotFound404 <==> FindByShortUrl(old(service.mappings), code).NotFound?
    ensures resp.status != Found302 ==> service.mappings == old(service.mappings) && service.clicks == old(service.clicks)
  {
    var r := service.GetOriginalUrl(code, now);
    resp := Respond(r);
  }
}
