/**
 * The subreddit post-listing controller: eleven cached listings with their
 * timestamps, the `Get*` methods that fetch them, the getters that serve
 * them while fresh, and the poll loop that watches one of them for changes.
 * The clock is the `now` argument, the web API the `api` argument, and the
 * events the controller raises are recorded in the ghost log `updates`.
 */
module Controllers {
  import opened ListingTypes
  import opened Routing
  import opened TtlCache
  import opened ListDiff
  import opened PollSpec

  /** A constructor argument: a null list becomes an empty one. */
  function OrEmpty(list: Option<seq<Post>>): seq<Post> {
    if list.Some? then list.value else []
  }

  class SubredditPosts {
    const subreddit: string
    var best: seq<Post>
    var hot: seq<Post>
    var newPosts: seq<Post>
    var rising: seq<Post>
    var top: seq<Post>
    var controversial: seq<Post>
    var modQueue: seq<Post>
    var modQueueReports: seq<Post>
    var modQueueSpam: seq<Post>
    var modQueueUnmoderated: seq<Post>
    var modQueueEdited: seq<Post>

    var bestLastUpdated: Option<int>
    var hotLastUpdated: Option<int>
    var newLastUpdated: Option<int>
    var risingLastUpdated: Option<int>
    var topLastUpdated: Option<int>
    var controversialLastUpdated: Option<int>
    var modQueueLastUpdated: Option<int>
    var modQueueReportsLastUpdated: Option<int>
    var modQueueSpamLastUpdated: Option<int>
    var modQueueUnmoderatedLastUpdated: Option<int>
    var modQueueEditedLastUpdated: Option<int>

    /** The time filter of the last `GetTop` / `GetControversial`, used by a stale read. */
    var topT: string
    var controversialT: string

    /** Every update event raised so far, in order. */
    ghost var updates: seq<Update>

    /** The listing field and timestamp of each listing. */
    ghost function SlotOf(k: ListKind): Slot
      reads this
    {
      match k
      case Best => Slot(best, bestLastUpdated)
      case Hot => Slot(hot, hotLastUpdated)
      case New => Slot(newPosts, newLastUpdated)
      case Rising => Slot(rising, risingLastUpdated)
      case Top => Slot(top, topLastUpdated)
      case Controversial => Slot(controversial, controversialLastUpdated)
      case ModQueue => Slot(modQueue, modQueueLastUpdated)
      case ModQueueReports => Slot(modQueueReports, modQueueReportsLastUpdated)
      case ModQueueSpam => Slot(modQueueSpam, modQueueSpamLastUpdated)
      case ModQueueUnmoderated => Slot(modQueueUnmoderated, modQueueUnmoderatedLastUpdated)
      case ModQueueEdited => Slot(modQueueEdited, modQueueEditedLastUpdated)
    }

    /**
     * Lists passed in are stored as they are and null ones as empty lists;
     * every timestamp is left null and both time filters are "all".
     */
    constructor(subreddit: string,
                best: Option<seq<Post>> := None,
                hot: Option<seq<Post>> := None,
                newPosts: Option<seq<Post>> := None,
                rising: Option<seq<Post>> := None,
                top: Option<seq<Post>> := None,
                controversial: Option<seq<Post>> := None,
                modQueue: Option<seq<Post>> := None,
                modQueueReports: Option<seq<Post>> := None,
                modQueueSpam: Option<seq<Post>> := None,
                modQueueUnmoderated: Option<seq<Post>> := None,
                modQueueEdited: Option<seq<Post>> := None)
      ensures this.subreddit == subreddit
      ensures this.best == OrEmpty(best)
      ensures this.hot == OrEmpty(hot)
      ensures this.newPosts == OrEmpty(newPosts)
      ensures this.rising == OrEmpty(rising)
      ensures this.top == OrEmpty(top)
      ensures this.controversial == OrEmpty(controversial)
      ensures this.modQueue == OrEmpty(modQueue)
      ensures this.modQueueReports == OrEmpty(modQueueReports)
      ensures this.modQueueSpam == OrEmpty(modQueueSpam)
      ensures this.modQueueUnmoderated == OrEmpty(modQueueUnmoderated)
      ensures this.modQueueEdited == OrEmpty(modQueueEdited)
      ensures forall k :: SlotOf(k).lastUpdated == None
      ensures topT == "all" && controversialT == "all"
      ensures updates == []
    {
      this.subreddit := subreddit;
      this.best := OrEmpty(best);
      this.hot := OrEmpty(hot);
      this.newPosts := OrEmpty(newPosts);
      this.rising := OrEmpty(rising);
      this.top := OrEmpty(top);
      this.controversial := OrEmpty(controversial);
      this.modQueue := OrEmpty(modQueue);
      this.modQueueReports := OrEmpty(modQueueReports);
      this.modQueueSpam := OrEmpty(modQueueSpam);
      this.modQueueUnmoderated := OrEmpty(modQueueUnmoderated);
      this.modQueueEdited := OrEmpty(modQueueEdited);
      bestLastUpdated := None;
      hotLastUpdated := None;
      newLastUpdated := None;
      risingLastUpdated := None;
      topLastUpdated := None;
      controversialLastUpdated := None;
      modQueueLastUpdated := None;
      modQueueReportsLastUpdated := None;
      modQueueSpamLastUpdated := None;
      modQueueUnmoderatedLastUpdated := None;
      modQueueEditedLastUpdated := None;
      topT, controversialT := "all", "all";
      updates := [];
    }

    /** `GetBest`: fetch the "best" listing, stamp it with `now`, store it and return it. */
    method GetBest(now: int, api: Api, after: string := "", before: string := "", limit: int := 100)
      returns (r: Result<seq<Post>>)
      modifies this`best, this`bestLastUpdated
      ensures Access(SlotOf(ListKind.Best), r) == Refresh(old(SlotOf(ListKind.Best)), now, api(BestQuery(Paging(after, before, limit))))
      ensures forall j :: j != ListKind.Best ==> SlotOf(j) == old(SlotOf(j))
    {
      var fetched := api(BestQuery(Paging(after, before, limit)));
      if fetched.None? {
        return Err(FetchFailed);
      }
      bestLastUpdated := Some(now);
      best := fetched.value;
      r := Ok(fetched.value);
    }

    /** `GetHot`: fetch the "hot" listing, stamp it with `now`, store it and return it. */
    method GetHot(now: int, api: Api, g: string := "", after: string := "", before: string := "", limit: int := 100)
      returns (r: Result<seq<Post>>)
      modifies this`hot, this`hotLastUpdated
      ensures Access(SlotOf(ListKind.Hot), r) == Refresh(old(SlotOf(ListKind.Hot)), now, api(HotQuery(g, Paging(after, before, limit), subreddit)))
      ensures forall j :: j != ListKind.Hot ==> SlotOf(j) == old(SlotOf(j))
    {
      var fetched := api(HotQuery(g, Paging(after, before, limit), subreddit));
      if fetched.None? {
        return Err(FetchFailed);
      }
      hotLastUpdated := Some(now);
      hot := fetched.value;
      r := Ok(fetched.value);
    }

    /** `GetNew`: fetch the "new" listing, stamp it with `now`, store it and return it. */
    method GetNew(now: int, api: Api, after: string := "", before: string := "", limit: int := 100)
      returns (r: Result<seq<Post>>)
      modifies this`newPosts, this`newLastUpdated
      ensures Access(SlotOf(ListKind.New), r) == Refresh(old(SlotOf(ListKind.New)), now, api(NewQuery(Paging(after, before, limit), subreddit)))
      ensures forall j :: j != ListKind.New ==> SlotOf(j) == old(SlotOf(j))
    {
      var fetched := api(NewQuery(Paging(after, before, limit), subreddit));
      if fetched.None? {
        return Err(FetchFailed);
      }
      newLastUpdated := Some(now);
      newPosts := fetched.value;
      r := Ok(fetched.value);
    }

    /** `GetRising`: fetch the "rising" listing, stamp it with `now`, store it and return it. */
    method GetRising(now: int, api: Api, after: string := "", before: string := "", limit: int := 100)
      returns (r: Result<seq<Post>>)
      modifies this`rising, this`risingLastUpdated
      ensures Access(SlotOf(ListKind.Rising), r) == Refresh(old(SlotOf(ListKind.Rising)), now, api(RisingQuery(Paging(after, before, limit), subreddit)))
      ensures forall j :: j != ListKind.Rising ==> SlotOf(j) == old(SlotOf(j))
    {
      var fetched := api(RisingQuery(Paging(after, before, limit), subreddit));
      if fetched.None? {
        return Err(FetchFailed);
      }
      risingLastUpdated := Some(now);
      rising := fetched.value;
      r := Ok(fetched.value);
    }

    /** `GetTop`: fetch the "top" listing, stamp it with `now`, store it and return it. */
    method GetTop(now: int, api: Api, t: string := "all", after: string := "", before: string := "", limit: int := 100)
      returns (r: Result<seq<Post>>)
      modifies this`top, this`topLastUpdated, this`topT
      ensures Access(SlotOf(ListKind.Top), r) == Refresh(old(SlotOf(ListKind.Top)), now, api(TopQuery(t, Paging(after, before, limit), subreddit)))
      ensures forall j :: j != ListKind.Top ==> SlotOf(j) == old(SlotOf(j))
      ensures topT == if r.Ok? then t else old(topT)
    {
      var fetched := api(TopQuery(t, Paging(after, before, limit), subreddit));
      if fetched.None? {
        return Err(FetchFailed);
      }
      topLastUpdated := Some(now);
      top := fetched.value;
      topT := t;
      r := Ok(fetched.value);
    }

    /** `GetControversial`: fetch the "controversial" listing, stamp it with `now`, store it and return it. */
    method GetControversial(now: int, api: Api, t: string := "all", after: string := "", before: string := "", limit: int := 100)
      returns (r: Result<seq<Post>>)
      modifies this`controversial, this`controversialLastUpdated, this`controversialT
      ensures Access(SlotOf(ListKind.Controversial), r) == Refresh(old(SlotOf(ListKind.Controversial)), now, api(ControversialQuery(t, Paging(after, before, limit), subreddit)))
      ensures forall j :: j != ListKind.Controversial ==> SlotOf(j) == old(SlotOf(j))
      ensures controversialT == if r.Ok? then t else old(controversialT)
    {
      var fetched := api(ControversialQuery(t, Paging(after, before, limit), subreddit));
      if fetched.None? {
        return Err(FetchFailed);
      }
      controversialLastUpdated := Some(now);
      controversial := fetched.value;
      controversialT := t;
      r := Ok(fetched.value);
    }

    /** `GetModQueue`: fetch the mod-queue listing at location "modqueue", stamp it with `now`, store it and return it. */
    method GetModQueue(now: int, api: Api, after: string := "", before: string := "", limit: int := 100, show: string := "all", srDetail: bool := false, count: int := 0)
      returns (r: Result<seq<Post>>)
      modifies this`modQueue, this`modQueueLastUpdated
      ensures Access(SlotOf(ListKind.ModQueue), r) == Refresh(old(SlotOf(ListKind.ModQueue)), now, api(ModQueueQuery("modqueue", "links", ModQueueParams(after, before, limit, show, srDetail, count), subreddit)))
      ensures forall j :: j != ListKind.ModQueue ==> SlotOf(j) == old(SlotOf(j))
    {
      var fetched := api(ModQueueQuery("modqueue", "links", ModQueueParams(after, before, limit, show, srDetail, count), subreddit));
      if fetched.None? {
        return Err(FetchFailed);
      }
      modQueueLastUpdated := Some(now);
      modQueue := fetched.value;
      r := Ok(fetched.value);
    }

    /** `GetModQueueReports`: fetch the mod-queue listing at location "reports", stamp it with `now`, store it and return it. */
    method GetModQueueReports(now: int, api: Api, after: string := "", before: string := "", limit: int := 100, show: string := "all", srDetail: bool := false, count: int := 0)
      returns (r: Result<seq<Post>>)
      modifies this`modQueueReports, this`modQueueReportsLastUpdated
      ensures Access(SlotOf(ListKind.ModQueueReports), r) == Refresh(old(SlotOf(ListKind.ModQueueReports)), now, api(ModQueueQuery("reports", "links", ModQueueParams(after, before, limit, show, srDetail, count), subreddit)))
      ensures forall j :: j != ListKind.ModQueueReports ==> SlotOf(j) == old(SlotOf(j))
    {
      var fetched := api(ModQueueQuery("reports", "links", ModQueueParams(after, before, limit, show, srDetail, count), subreddit));
      if fetched.None? {
        return Err(FetchFailed);
      }
      modQueueReportsLastUpdated := Some(now);
      modQueueReports := fetched.value;
      r := Ok(fetched.value);
    }

    /** `GetModQueueSpam`: fetch the mod-queue listing at location "spam", stamp it with `now`, store it and return it. */
    method GetModQueueSpam(now: int, api: Api, after: string := "", before: string := "", limit: int := 100, show: string := "all", srDetail: bool := false, count: int := 0)
      returns (r: Result<seq<Post>>)
      modifies this`modQueueSpam, this`modQueueSpamLastUpdated
      ensures Access(SlotOf(ListKind.ModQueueSpam), r) == Refresh(old(SlotOf(ListKind.ModQueueSpam)), now, api(ModQueueQuery("spam", "links", ModQueueParams(after, before, limit, show, srDetail, count), subreddit)))
      ensures forall j :: j != ListKind.ModQueueSpam ==> SlotOf(j) == old(SlotOf(j))
    {
      var fetched := api(ModQueueQuery("spam", "links", ModQueueParams(after, before, limit, show, srDetail, count), subreddit));
      if fetched.None? {
        return Err(FetchFailed);
      }
      modQueueSpamLastUpdated := Some(now);
      modQueueSpam := fetched.value;
      r := Ok(fetched.value);
    }

    /** `GetModQueueUnmoderated`: fetch the mod-queue listing at location "unmoderated", stamp it with `now`, store it and return it. */
    method GetModQueueUnmoderated(now: int, api: Api, after: string := "", before: string := "", limit: int := 100, show: string := "all", srDetail: bool := false, count: int := 0)
      returns (r: Result<seq<Post>>)
      modifies this`modQueueUnmoderated, this`modQueueUnmoderatedLastUpdated
      ensures Access(SlotOf(ListKind.ModQueueUnmoderated), r) == Refresh(old(SlotOf(ListKind.ModQueueUnmoderated)), now, api(ModQueueQuery("unmoderated", "links", ModQueueParams(after, before, limit, show, srDetail, count), subreddit)))
      ensures forall j :: j != ListKind.ModQueueUnmoderated ==> SlotOf(j) == old(SlotOf(j))
    {
      var fetched := api(ModQueueQuery("unmoderated", "links", ModQueueParams(after, before, limit, show, srDetail, count), subreddit));
      if fetched.None? {
        return Err(FetchFailed);
      }
      modQueueUnmoderatedLastUpdated := Some(now);
      modQueueUnmoderated := fetched.value;
      r := Ok(fetched.value);
    }

    /** `GetModQueueEdited`: fetch the mod-queue listing at location "edited", stamp it with `now`, store it and return it. */
    method GetModQueueEdited(now: int, api: Api, after: string := "", before: string := "", limit: int := 100, show: string := "all", srDetail: bool := false, count: int := 0)
      returns (r: Result<seq<Post>>)
      modifies this`modQueueEdited, this`modQueueEditedLastUpdated
      ensures Access(SlotOf(ListKind.ModQueueEdited), r) == Refresh(old(SlotOf(ListKind.ModQueueEdited)), now, api(ModQueueQuery("edited", "links", ModQueueParams(after, before, limit, show, srDetail, count), subreddit)))
      ensures forall j :: j != ListKind.ModQueueEdited ==> SlotOf(j) == old(SlotOf(j))
    {
      var fetched := api(ModQueueQuery("edited", "links", ModQueueParams(after, before, limit, show, srDetail, count), subreddit));
      if fetched.None? {
        return Err(FetchFailed);
      }
      modQueueEditedLastUpdated := Some(now);
      modQueueEdited := fetched.value;
      r := Ok(fetched.value);
    }

    /** The `Best` property: the cached list while fresh, otherwise `GetBest()`. */
    method Best(now: int, api: Api) returns (r: Result<seq<Post>>)
      modifies this`best, this`bestLastUpdated
      ensures Access(SlotOf(ListKind.Best), r) == Read(old(SlotOf(ListKind.Best)), now, api(DefaultQuery(ListKind.Best, subreddit)))
    {
      if Fresh(bestLastUpdated, now) {
        r := Ok(best);
      } else {
        r := GetBest(now, api);
      }
    }

    /** The `Hot` property: the cached list while fresh, otherwise `GetHot()`. */
    method Hot(now: int, api: Api) returns (r: Result<seq<Post>>)
      modifies this`hot, this`hotLastUpdated
      ensures Access(SlotOf(ListKind.Hot), r) == Read(old(SlotOf(ListKind.Hot)), now, api(DefaultQuery(ListKind.Hot, subreddit)))
    {
      if Fresh(hotLastUpdated, now) {
        r := Ok(hot);
      } else {
        r := GetHot(now, api);
      }
    }

    /** The `New` property: the cached list while fresh, otherwise `GetNew()`. */
    method New(now: int, api: Api) returns (r: Result<seq<Post>>)
      modifies this`newPosts, this`newLastUpdated
      ensures Access(SlotOf(ListKind.New), r) == Read(old(SlotOf(ListKind.New)), now, api(DefaultQuery(ListKind.New, subreddit)))
    {
      if Fresh(newLastUpdated, now) {
        r := Ok(newPosts);
      } else {
        r := GetNew(now, api);
      }
    }

    /** The `Rising` property: the cached list while fresh, otherwise `GetRising()`. */
    method Rising(now: int, api: Api) returns (r: Result<seq<Post>>)
      modifies this`rising, this`risingLastUpdated
      ensures Access(SlotOf(ListKind.Rising), r) == Read(old(SlotOf(ListKind.Rising)), now, api(DefaultQuery(ListKind.Rising, subreddit)))
    {
      if Fresh(risingLastUpdated, now) {
        r := Ok(rising);
      } else {
        r := GetRising(now, api);
      }
    }

    /**
     * The `Top` property: the cached list while fresh; otherwise `GetTop`
     * with the time filter last used, which it keeps.
     */
    method Top(now: int, api: Api) returns (r: Result<seq<Post>>)
      modifies this`top, this`topLastUpdated, this`topT
      ensures Access(SlotOf(ListKind.Top), r) == Read(old(SlotOf(ListKind.Top)), now, api(TopQuery(old(topT), DefaultPaging, subreddit)))
      ensures topT == old(topT)
    {
      if Fresh(topLastUpdated, now) {
        r := Ok(top);
      } else {
        r := GetTop(now, api, topT);
      }
    }

    /**
     * The `Controversial` property: the cached list while fresh; otherwise `GetControversial`
     * with the time filter last used, which it keeps.
     */
    method Controversial(now: int, api: Api) returns (r: Result<seq<Post>>)
      modifies this`controversial, this`controversialLastUpdated, this`controversialT
      ensures Access(SlotOf(ListKind.Controversial), r) == Read(old(SlotOf(ListKind.Controversial)), now, api(ControversialQuery(old(controversialT), DefaultPaging, subreddit)))
      ensures controversialT == old(controversialT)
    {
      if Fresh(controversialLastUpdated, now) {
        r := Ok(controversial);
      } else {
        r := GetControversial(now, api, controversialT);
      }
    }

    /** The `ModQueue` property: the cached list while fresh, otherwise `GetModQueue()`. */
    method ModQueue(now: int, api: Api) returns (r: Result<seq<Post>>)
      modifies this`modQueue, this`modQueueLastUpdated
      ensures Access(SlotOf(ListKind.ModQueue), r) == Read(old(SlotOf(ListKind.ModQueue)), now, api(DefaultQuery(ListKind.ModQueue, subreddit)))
    {
      if Fresh(modQueueLastUpdated, now) {
        r := Ok(modQueue);
      } else {
        r := GetModQueue(now, api);
      }
    }

    /**
     * The `ModQueueReports` property as written: fresh or stale by the mod-queue
     * timestamp; a fresh read returns this filter's own field, a stale one
     * refreshes and returns the mod queue. This filter's field and timestamp
     * never change.
     */
    method ModQueueReports(now: int, api: Api) returns (r: Result<seq<Post>>)
      modifies this`modQueue, this`modQueueLastUpdated
      ensures Access(SlotOf(ListKind.ModQueue), r)
        == ReadGuardedBy(old(SlotOf(ListKind.ModQueueReports)), old(SlotOf(ListKind.ModQueue)), now, api(DefaultQuery(ListKind.ModQueue, subreddit)))
      ensures SlotOf(ListKind.ModQueueReports) == old(SlotOf(ListKind.ModQueueReports))
    {
      if Fresh(modQueueLastUpdated, now) {
        r := Ok(modQueueReports);
      } else {
        r := GetModQueue(now, api);
      }
    }

    /** The `ModQueueReports` property as evidently intended: its own timestamp and its own `GetModQueueReports`. */
    method ModQueueReportsIntended(now: int, api: Api) returns (r: Result<seq<Post>>)
      modifies this`modQueueReports, this`modQueueReportsLastUpdated
      ensures Access(SlotOf(ListKind.ModQueueReports), r) == Read(old(SlotOf(ListKind.ModQueueReports)), now, api(DefaultQuery(ListKind.ModQueueReports, subreddit)))
    {
      if Fresh(modQueueReportsLastUpdated, now) {
        r := Ok(modQueueReports);
      } else {
        r := GetModQueueReports(now, api);
      }
    }

    /**
     * The `ModQueueSpam` property as written: fresh or stale by the mod-queue
     * timestamp; a fresh read returns this filter's own field, a stale one
     * refreshes and returns the mod queue. This filter's field and timestamp
     * never change.
     */
    method ModQueueSpam(now: int, api: Api) returns (r: Result<seq<Post>>)
      modifies this`modQueue, this`modQueueLastUpdated
      ensures Access(SlotOf(ListKind.ModQueue), r)
        == ReadGuardedBy(old(SlotOf(ListKind.ModQueueSpam)), old(SlotOf(ListKind.ModQueue)), now, api(DefaultQuery(ListKind.ModQueue, subreddit)))
      ensures SlotOf(ListKind.ModQueueSpam) == old(SlotOf(ListKind.ModQueueSpam))
    {
      if Fresh(modQueueLastUpdated, now) {
        r := Ok(modQueueSpam);
      } else {
        r := GetModQueue(now, api);
      }
    }

    /** The `ModQueueSpam` property as evidently intended: its own timestamp and its own `GetModQueueSpam`. */
    method ModQueueSpamIntended(now: int, api: Api) returns (r: Result<seq<Post>>)
      modifies this`modQueueSpam, this`modQueueSpamLastUpdated
      ensures Access(SlotOf(ListKind.ModQueueSpam), r) == Read(old(SlotOf(ListKind.ModQueueSpam)), now, api(DefaultQuery(ListKind.ModQueueSpam, subreddit)))
    {
      if Fresh(modQueueSpamLastUpdated, now) {
        r := Ok(modQueueSpam);
      } else {
        r := GetModQueueSpam(now, api);
      }
    }

    /**
     * The `ModQueueUnmoderated` property as written: fresh or stale by the mod-queue
     * timestamp; a fresh read returns this filter's own field, a stale one
     * refreshes and returns the mod queue. This filter's field and timestamp
     * never change.
     */
    method ModQueueUnmoderated(now: int, api: Api) returns (r: Result<seq<Post>>)
      modifies this`modQueue, this`modQueueLastUpdated
      ensures Access(SlotOf(ListKind.ModQueue), r)
        == ReadGuardedBy(old(SlotOf(ListKind.ModQueueUnmoderated)), old(SlotOf(ListKind.ModQueue)), now, api(DefaultQuery(ListKind.ModQueue, subreddit)))
      ensures SlotOf(ListKind.ModQueueUnmoderated) == old(SlotOf(ListKind.ModQueueUnmoderated))
    {
      if Fresh(modQueueLastUpdated, now) {
        r := Ok(modQueueUnmoderated);
      } else {
        r := GetModQueue(now, api);
      }
    }

    /** The `ModQueueUnmoderated` property as evidently intended: its own timestamp and its own `GetModQueueUnmoderated`. */
    method ModQueueUnmoderatedIntended(now: int, api: Api) returns (r: Result<seq<Post>>)
      modifies this`modQueueUnmoderated, this`modQueueUnmoderatedLastUpdated
      ensures Access(SlotOf(ListKind.ModQueueUnmoderated), r) == Read(old(SlotOf(ListKind.ModQueueUnmoderated)), now, api(DefaultQuery(ListKind.ModQueueUnmoderated, subreddit)))
    {
      if Fresh(modQueueUnmoderatedLastUpdated, now) {
        r := Ok(modQueueUnmoderated);
      } else {
        r := GetModQueueUnmoderated(now, api);
      }
    }

    /**
     * The `ModQueueEdited` property as written: fresh or stale by the mod-queue
     * timestamp; a fresh read returns this filter's own field, a stale one
     * refreshes and returns the mod queue. This filter's field and timestamp
     * never change.
     */
    method ModQueueEdited(now: int, api: Api) returns (r: Result<seq<Post>>)
      modifies this`modQueue, this`modQueueLastUpdated
      ensures Access(SlotOf(ListKind.ModQueue), r)
        == ReadGuardedBy(old(SlotOf(ListKind.ModQueueEdited)), old(SlotOf(ListKind.ModQueue)), now, api(DefaultQuery(ListKind.ModQueue, subreddit)))
      ensures SlotOf(ListKind.ModQueueEdited) == old(SlotOf(ListKind.ModQueueEdited))
    {
      if Fresh(modQueueLastUpdated, now) {
        r := Ok(modQueueEdited);
      } else {
        r := GetModQueue(now, api);
      }
    }

    /** The `ModQueueEdited` property as evidently intended: its own timestamp and its own `GetModQueueEdited`. */
    method ModQueueEditedIntended(now: int, api: Api) returns (r: Result<seq<Post>>)
      modifies this`modQueueEdited, this`modQueueEditedLastUpdated
      ensures Access(SlotOf(ListKind.ModQueueEdited), r) == Read(old(SlotOf(ListKind.ModQueueEdited)), now, api(DefaultQuery(ListKind.ModQueueEdited, subreddit)))
    {
      if Fresh(modQueueEditedLastUpdated, now) {
        r := Ok(modQueueEdited);
      } else {
        r := GetModQueueEdited(now, api);
      }
    }

    /** `TriggerUpdate`: raise the event of the type, or nothing for a type it does not know. */
    method TriggerUpdate(args: PostsUpdate, listingType: string)
      modifies this`updates
      ensures updates == old(updates) + match UpdateChannel(listingType)
                                        case Some(k) => [Update(k, args)]
                                        case None => []
    {
      var channel := UpdateChannel(listingType);
      if channel.Some? {
        updates := updates + [Update(channel.value, args)];
      }
    }

    /**
     * The type switch of one poll iteration: take the listing's field as it
     * is, then fetch it anew through its `Get*` method with every argument at
     * its default, which also stores and stamps it.
     */
    method TakeAndFetch(k: ListKind, now: int, api: Api) returns (oldList: seq<Post>, newList: Result<seq<Post>>)
      modifies this
      ensures oldList == old(SlotOf(k)).posts
      ensures Access(SlotOf(k), newList) == Refresh(old(SlotOf(k)), now, api(DefaultQuery(k, subreddit)))
      ensures forall j :: j != k ==> SlotOf(j) == old(SlotOf(j))
      ensures topT == (if k == ListKind.Top && newList.Ok? then "all" else old(topT))
      ensures controversialT == (if k == ListKind.Controversial && newList.Ok? then "all" else old(controversialT))
      ensures updates == old(updates)
      ensures newList.Err? ==> unchanged(this)
    {
      match k {
        case Best =>
          oldList := best;
          newList := GetBest(now, api);
        case Hot =>
          oldList := hot;
          newList := GetHot(now, api);
        case New =>
          oldList := newPosts;
          newList := GetNew(now, api);
        case Rising =>
          oldList := rising;
          newList := GetRising(now, api);
        case Top =>
          oldList := top;
          newList := GetTop(now, api);
        case Controversial =>
          oldList := controversial;
          newList := GetControversial(now, api);
        case ModQueue =>
          oldList := modQueue;
          newList := GetModQueue(now, api);
        case ModQueueReports =>
          oldList := modQueueReports;
          newList := GetModQueueReports(now, api);
        case ModQueueSpam =>
          oldList := modQueueSpam;
          newList := GetModQueueSpam(now, api);
        case ModQueueUnmoderated =>
          oldList := modQueueUnmoderated;
          newList := GetModQueueUnmoderated(now, api);
        case ModQueueEdited =>
          oldList := modQueueEdited;
          newList := GetModQueueEdited(now, api);
      }
    }

    /**
     * One iteration of the poll loop: remember the listing's field, fetch it
     * anew, and raise an update when the comparison reports a change. An
     * unknown type or a fetch that throws ends the iteration and changes
     * nothing.
     */
    method PollOnce(listingType: string, now: int, api: Api, diff: Differ) returns (status: Status)
      modifies this
      ensures PollKind(listingType).None? ==> status == Failed(UnrecognizedType(listingType)) && unchanged(this)
      ensures PollKind(listingType).Some? ==>
        var k := PollKind(listingType).value;
        var step := Step(k, old(SlotOf(k)), now, api(DefaultQuery(k, subreddit)), diff);
        && (step.None? ==> status == Failed(FetchFailed) && unchanged(this))
        && (step.Some? ==>
              && status == Completed
              && SlotOf(k) == step.value.slot
              && updates == old(updates) + step.value.updates
              && (forall j :: j != k ==> SlotOf(j) == old(SlotOf(j)))
              && topT == (if k == ListKind.Top then "all" else old(topT))
              && controversialT == (if k == ListKind.Controversial then "all" else old(controversialT)))
    {
      var kind := PollKind(listingType);
      if kind.None? {
        return Failed(UnrecognizedType(listingType));
      }
      var oldList, newList := TakeAndFetch(kind.value, now, api);
      if newList.Err? {
        return Failed(newList.error);
      }
      var d := diff(oldList, newList.value);
      if d.changed {
        PollAndTriggerAgree(listingType);
        TriggerUpdate(PostsUpdate(oldList, newList.value, d.added, d.removed), listingType);
      } else {
        assert updates == old(updates) + [];
      }
      status := Completed;
    }

    /**
     * `MonitorPostsThread`: after the start delay, run iterations while the
     * loop guard holds for the tick at hand, sleeping `Monitoring.Count()`
     * times the wait delay after each; an unknown type or a fetch that
     * throws ends the loop with that error. `ticks[i]` is what iteration `i`
     * sees of the world. The type is looked up once before the loop, which
     * is the same as looking it up in every iteration: an unknown type throws
     * in the first iteration, if there is one.
     */
    method MonitorPostsThread(listingType: string, subKey: string, startDelayMs: int, waitDelayMs: nat,
                              ticks: seq<Tick>, diff: Differ)
      returns (status: Status, iterations: nat, sleeps: seq<int>)
      modifies this
      ensures iterations <= |ticks|
      ensures forall t :: t in ticks[..iterations] ==> KeepPolling(t, subKey)
      ensures status == Completed ==> iterations == |ticks| || !KeepPolling(ticks[iterations], subKey)
      ensures status.Failed? ==>
        && iterations < |ticks| && KeepPolling(ticks[iterations], subKey)
        && match PollKind(listingType)
           case None => iterations == 0 && status.error == UnrecognizedType(listingType)
           case Some(k) => status.error == FetchFailed && ticks[iterations].api(DefaultQuery(k, subreddit)).None?
      ensures PollKind(listingType).None? ==>
        && iterations == 0
        && (status.Failed? <==> |ticks| > 0 && KeepPolling(ticks[0], subKey))
        && unchanged(this)
      ensures PollKind(listingType).Some? ==>
        var k := PollKind(listingType).value;
        var run := Run(k, subreddit, old(SlotOf(k)), ticks[..iterations], diff);
        && run.Some?
        && SlotOf(k) == run.value.slot
        && updates == old(updates) + run.value.updates
        && (forall j :: j != k ==> SlotOf(j) == old(SlotOf(j)))
        && topT == (if k == ListKind.Top && iterations > 0 then "all" else old(topT))
        && controversialT == (if k == ListKind.Controversial && iterations > 0 then "all" else old(controversialT))
      ensures sleeps == (if startDelayMs > 0 then [startDelayMs] else []) + Waits(waitDelayMs, ticks[..iterations])
    {
      sleeps := if startDelayMs > 0 then [startDelayMs] else [];
      iterations := 0;
      status := Completed;
      if PollKind(listingType).None? {
        if |ticks| > 0 && KeepPolling(ticks[0], subKey) {
          status := PollOnce(listingType, ticks[0].now, ticks[0].api, diff);
        }
        return;
      }
      ghost var delay := sleeps;
      ghost var k := PollKind(listingType).value;
      ghost var start := SlotOf(k);
      ghost var run := Observed(start, []);
      ghost var done: seq<Tick> := [];
      while iterations < |ticks| && KeepPolling(ticks[iterations], subKey)
        invariant iterations <= |ticks|
        invariant status == Completed
        invariant done == ticks[..iterations]
        invariant forall t :: t in done ==> KeepPolling(t, subKey)
        invariant Run(k, subreddit, start, done, diff) == Some(run)
        invariant SlotOf(k) == run.slot && updates == old(updates) + run.updates
        invariant forall j :: j != k ==> SlotOf(j) == old(SlotOf(j))
        invariant topT == (if k == ListKind.Top && iterations > 0 then "all" else old(topT))
        invariant controversialT == (if k == ListKind.Controversial && iterations > 0 then "all" else old(controversialT))
        invariant sleeps == delay + Waits(waitDelayMs, done)
        decreases |ticks| - iterations
      {
        var tick := ticks[iterations];
        status := PollOnce(listingType, tick.now, tick.api, diff);
        if status.Failed? {
          return;
        }
        ghost var step := Step(k, run.slot, tick.now, tick.api(DefaultQuery(k, subreddit)), diff).value;
        RunExtends(k, subreddit, start, done, tick, diff);
        AppendAssociates(old(updates), run.updates, step.updates);
        var pause := tick.activeMonitors * waitDelayMs;
        WaitsExtends(waitDelayMs, done, tick);
        AppendAssociates(delay, Waits(waitDelayMs, done), [pause]);
        PrefixExtends(ticks, iterations);
        done := done + [tick];
        run := Observed(step.slot, run.updates + step.updates);
        sleeps := sleeps + [pause];
        iterations := iterations + 1;
      }
    }
  }
}
