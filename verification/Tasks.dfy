/** Message bodies. Every stage decodes the same kind of JSON object and reads its own fields. */
module Tasks {
  /** A body is not JSON, or an object whose absent fields decode to zero values. */
  datatype Body =
    | NotJson
    | Json(searchUrl: string, page: int, url: string, fetchId: int, olxUserId: string)

  function DiscoverTask(searchUrl: string, page: int): Body { Json(searchUrl, page, "", 0, "") }
  function FetchTask(url: string): Body { Json("", 0, url, 0, "") }
  function ParseTask(fetchId: int, url: string): Body { Json("", 0, url, fetchId, "") }
  function EnrichTask(olxUserId: string): Body { Json("", 0, "", 0, olxUserId) }
}
