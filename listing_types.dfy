/**
 * Values shared by the subreddit post-listing controller: posts, the eleven
 * cached listings, the requests sent to the listing endpoints, and the
 * outcome types that stand for the exceptions the controller can raise.
 */
module ListingTypes {

  datatype Option<+T> = None | Some(value: T)

  /** The controller's exceptions, and a failed fetch from the web API. */
  datatype Error =
    | UnrecognizedKey            // `CreateMonitoringThread` on a key it does not know
    | UnrecognizedType(listingType: string)  // the poll loop on a type it does not know
    | FetchFailed                // the HTTP/JSON layer threw while fetching a listing

  datatype Result<+T> = Ok(value: T) | Err(error: Error)

  /** How a poll iteration or a whole poll run ended. */
  datatype Status = Completed | Failed(error: Error)

  /** A post; only its identity (the platform's fullname) matters here. */
  datatype Post = Post(fullname: string)

  /** The eleven listings the controller caches, one field and one timestamp each. */
  datatype ListKind =
    | Best | Hot | New | Rising | Top | Controversial
    | ModQueue | ModQueueReports | ModQueueSpam | ModQueueUnmoderated | ModQueueEdited

  /** The paging arguments every `Get*` method forwards to the endpoint. */
  datatype Paging = Paging(after: string, before: string, limit: int)

  /** The arguments `GetModQueue*` forward to the moderation endpoint. */
  datatype ModQueueParams =
    ModQueueParams(after: string, before: string, limit: int, show: string, srDetail: bool, count: int)

  /** The defaults of the `Get*` methods, which is what the getters and the poll loop send. */
  const DefaultPaging := Paging("", "", 100)
  const DefaultModQueueParams := ModQueueParams("", "", 100, "all", false, 0)

  /**
   * One request to the web API. The "best" listing is not scoped to the
   * subreddit; every other request names it. Mod-queue requests always ask
   * for "links".
   */
  datatype Query =
    | BestQuery(page: Paging)
    | HotQuery(g: string, page: Paging, subreddit: string)
    | NewQuery(page: Paging, subreddit: string)
    | RisingQuery(page: Paging, subreddit: string)
    | TopQuery(t: string, page: Paging, subreddit: string)
    | ControversialQuery(t: string, page: Paging, subreddit: string)
    | ModQueueQuery(location: string, only: string, params: ModQueueParams, subreddit: string)

  /**
   * The listing fetcher: what the web API answers to a request at the
   * moment it is asked, `None` when the transport or the decoding fails.
   */
  type Api = Query -> Option<seq<Post>>
}
