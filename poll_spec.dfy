/**
 * The specification of the poll loop `MonitorPostsThread`: what one
 * iteration does to the polled listing's slot and which update event it
 * raises, and what a run of iterations does.
 */
module PollSpec {
  import opened ListingTypes
  import opened TtlCache
  import opened ListDiff

  /** `PostsUpdateEventArgs`: the list before, the list after, and the diff between them. */
  datatype PostsUpdate = PostsUpdate(oldPosts: seq<Post>, newPosts: seq<Post>, added: seq<Post>, removed: seq<Post>)

  /** An update raised on the event of one listing (`BestUpdated`, ..., `ModQueueEditedUpdated`). */
  datatype Update = Update(channel: ListKind, args: PostsUpdate)

  /**
   * What one iteration of the poll loop sees of the world outside the
   * controller: the `Terminate` flag, the subkeys registered under the
   * loop's key (`Monitoring.Get(key)`), the number the sleep is scaled by
   * (`Monitoring.Count()`), the clock, and the web API.
   */
  datatype Tick = Tick(terminate: bool, subkeys: set<string>, activeMonitors: nat, now: int, api: Api)

  /** The loop guard: not terminated and the subkey still registered. */
  predicate KeepPolling(t: Tick, subKey: string) {
    !t.terminate && subKey in t.subkeys
  }

  /**
   * The sleeps that follow the iterations of `ts`, in order: each lasts
   * `Monitoring.Count()` at that moment times the wait delay.
   */
  function Waits(waitDelayMs: nat, ts: seq<Tick>): seq<int>
    decreases |ts|
  {
    if ts == [] then []
    else Waits(waitDelayMs, ts[..|ts| - 1]) + [ts[|ts| - 1].activeMonitors * waitDelayMs]
  }

  /** One sleep per iteration, the `j`th scaled by the monitor count the `j`th iteration saw. */
  lemma {:induction false} WaitsFollowMonitorCount(waitDelayMs: nat, ts: seq<Tick>)
    ensures |Waits(waitDelayMs, ts)| == |ts|
    ensures forall j :: 0 <= j < |ts| ==> Waits(waitDelayMs, ts)[j] == ts[j].activeMonitors * waitDelayMs
    decreases |ts|
  {
    if ts != [] {
      var init := ts[..|ts| - 1];
      WaitsFollowMonitorCount(waitDelayMs, init);
      assert forall j :: 0 <= j < |init| ==> init[j] == ts[j];
    }
  }

  /** Concatenation is associative. */
  lemma AppendAssociates<T>(a: seq<T>, b: seq<T>, c: seq<T>)
    ensures (a + b) + c == a + (b + c)
  {
  }

  /** One more iteration appends one more sleep. */
  lemma WaitsExtends(waitDelayMs: nat, ts: seq<Tick>, t: Tick)
    ensures Waits(waitDelayMs, ts + [t]) == Waits(waitDelayMs, ts) + [t.activeMonitors * waitDelayMs]
  {
    assert (ts + [t])[..|ts|] == ts;
  }

  /**
   * The request a `Get*` method sends when every argument is at its default,
   * as the poll loop and the getters call them: "top" and "controversial"
   * then ask for the time filter "all".
   */
  function DefaultQuery(k: ListKind, subreddit: string): Query {
    match k
    case Best => BestQuery(DefaultPaging)
    case Hot => HotQuery("", DefaultPaging, subreddit)
    case New => NewQuery(DefaultPaging, subreddit)
    case Rising => RisingQuery(DefaultPaging, subreddit)
    case Top => TopQuery("all", DefaultPaging, subreddit)
    case Controversial => ControversialQuery("all", DefaultPaging, subreddit)
    case ModQueue => ModQueueQuery("modqueue", "links", DefaultModQueueParams, subreddit)
    case ModQueueReports => ModQueueQuery("reports", "links", DefaultModQueueParams, subreddit)
    case ModQueueSpam => ModQueueQuery("spam", "links", DefaultModQueueParams, subreddit)
    case ModQueueUnmoderated => ModQueueQuery("unmoderated", "links", DefaultModQueueParams, subreddit)
    case ModQueueEdited => ModQueueQuery("edited", "links", DefaultModQueueParams, subreddit)
  }

  /** The polled slot after some iterations, and the updates they raised, in order. */
  datatype Observed = Observed(slot: Slot, updates: seq<Update>)

  /**
   * One iteration on listing `k` whose slot was `s`: the fetch replaces the
   * slot; when the comparison of the list held before with the fetched one
   * reports a change, one update carrying both lists and the diff is raised
   * on `k`'s event. A fetch that throws ends the iteration (`None`) with
   * nothing stored and nothing raised.
   */
  function Step(k: ListKind, s: Slot, now: int, fetched: Option<seq<Post>>, diff: Differ): (r: Option<Observed>)
    ensures r.Some? <==> fetched.Some?
    ensures r.Some? ==> r.value.slot == Refresh(s, now, fetched).slot && r.value.slot.posts == fetched.value
    ensures r.Some? ==> |r.value.updates| <= 1 && (r.value.updates != [] <==> diff(s.posts, fetched.value).changed)
    ensures r.Some? && r.value.updates != [] ==>
      var d := diff(s.posts, fetched.value);
      r.value.updates[0] == Update(k, PostsUpdate(s.posts, fetched.value, d.added, d.removed))
  {
    match fetched
    case None => None
    case Some(newList) =>
      var d := diff(s.posts, newList);
      var raised := if d.changed then [Update(k, PostsUpdate(s.posts, newList, d.added, d.removed))] else [];
      Some(Observed(Slot(newList, Some(now)), raised))
  }

  /**
   * Iterations on listing `k` for each tick of `ts`, in order, starting from
   * slot `start`; `None` once a fetch throws.
   */
  function Run(k: ListKind, subreddit: string, start: Slot, ts: seq<Tick>, diff: Differ): Option<Observed>
    decreases |ts|
  {
    if ts == [] then Some(Observed(start, []))
    else
      match Run(k, subreddit, start, ts[..|ts| - 1], diff)
      case None => None
      case Some(before) =>
        var t := ts[|ts| - 1];
        match Step(k, before.slot, t.now, t.api(DefaultQuery(k, subreddit)), diff)
        case None => None
        case Some(after) => Some(Observed(after.slot, before.updates + after.updates))
  }

  /** A run completes exactly when none of its fetches throws. */
  lemma {:induction false} RunCompletesIffEveryFetchSucceeds(k: ListKind, subreddit: string, start: Slot, ts: seq<Tick>, diff: Differ)
    ensures Run(k, subreddit, start, ts, diff).Some? <==> forall i :: 0 <= i < |ts| ==> ts[i].api(DefaultQuery(k, subreddit)).Some?
    decreases |ts|
  {
    if ts != [] {
      var init := ts[..|ts| - 1];
      RunCompletesIffEveryFetchSucceeds(k, subreddit, start, init, diff);
      assert forall i :: 0 <= i < |init| ==> init[i] == ts[i];
    }
  }

  /**
   * A completed run raises at most one update per iteration, each on the
   * event of the polled listing, and ends holding the list of its last fetch,
   * stamped with that fetch's time.
   */
  lemma {:induction false} RunRaisesOnItsOwnEvent(k: ListKind, subreddit: string, start: Slot, ts: seq<Tick>, diff: Differ)
    requires Run(k, subreddit, start, ts, diff).Some?
    ensures |Run(k, subreddit, start, ts, diff).value.updates| <= |ts|
    ensures forall u :: u in Run(k, subreddit, start, ts, diff).value.updates ==> u.channel == k
    ensures ts != [] ==>
      var last := ts[|ts| - 1];
      Run(k, subreddit, start, ts, diff).value.slot == Slot(last.api(DefaultQuery(k, subreddit)).value, Some(last.now))
    decreases |ts|
  {
    if ts != [] {
      RunRaisesOnItsOwnEvent(k, subreddit, start, ts[..|ts| - 1], diff);
    }
  }

  /**
   * When every fetch returns the list already held and the comparison finds
   * no change between a list and itself, a run raises nothing and keeps the
   * list (only its timestamp moves).
   */
  lemma {:induction false} UnchangedListingRaisesNothing(k: ListKind, subreddit: string, start: Slot, ts: seq<Tick>, diff: Differ)
    requires forall l :: !diff(l, l).changed
    requires forall i :: 0 <= i < |ts| ==> ts[i].api(DefaultQuery(k, subreddit)) == Some(start.posts)
    ensures Run(k, subreddit, start, ts, diff).Some?
    ensures Run(k, subreddit, start, ts, diff).value.updates == []
    ensures Run(k, subreddit, start, ts, diff).value.slot.posts == start.posts
    decreases |ts|
  {
    if ts != [] {
      var init := ts[..|ts| - 1];
      UnchangedListingRaisesNothing(k, subreddit, start, init, diff);
      var before := Run(k, subreddit, start, init, diff).value;
      var t := ts[|ts| - 1];
      assert !diff(before.slot.posts, start.posts).changed;
      assert Step(k, before.slot, t.now, t.api(DefaultQuery(k, subreddit)), diff).value.updates == [];
    }
  }

  /**
   * Under any comparison, each update a run raises was reported as a change
   * by the comparison of the two lists it carries.
   */
  lemma {:induction false} EveryUpdateIsAReportedChange(k: ListKind, subreddit: string, start: Slot, ts: seq<Tick>, diff: Differ)
    requires Run(k, subreddit, start, ts, diff).Some?
    ensures forall u :: u in Run(k, subreddit, start, ts, diff).value.updates ==>
      var d := diff(u.args.oldPosts, u.args.newPosts);
      d.changed && u.args.added == d.added && u.args.removed == d.removed
    decreases |ts|
  {
    if ts != [] {
      var init := ts[..|ts| - 1];
      EveryUpdateIsAReportedChange(k, subreddit, start, init, diff);
    }
  }

  /** The first `i + 1` ticks are the first `i` followed by tick `i`. */
  lemma PrefixExtends(ts: seq<Tick>, i: nat)
    requires i < |ts|
    ensures ts[..i] + [ts[i]] == ts[..i + 1]
  {
  }

  /** A run one tick longer is the run followed by one more iteration. */
  lemma RunExtends(k: ListKind, subreddit: string, start: Slot, ts: seq<Tick>, t: Tick, diff: Differ)
    ensures Run(k, subreddit, start, ts + [t], diff)
      == match Run(k, subreddit, start, ts, diff)
         case None => None
         case Some(before) =>
           match Step(k, before.slot, t.now, t.api(DefaultQuery(k, subreddit)), diff)
           case None => None
           case Some(after) => Some(Observed(after.slot, before.updates + after.updates))
  {
    assert (ts + [t])[..|ts|] == ts;
  }

  /** The second comparison of the scenario below: D is new and B is gone. */
  lemma ScenarioSecondDiff(a: Post, b: Post, c: Post, d: Post)
    requires a != b && a != c && a != d && b != c && b != d && c != d
    ensures IdentityDiff([a, b, c], [a, c, d]) == Diff(true, [d], [b])
  {
    assert Missing([a, c, d], [a, b, c]) == [d] by {
      assert [a, c, d][1..] == [c, d] && [c, d][1..] == [d] && [d][1..] == [];
      assert Missing([d], [a, b, c]) == [d];
      assert Missing([c, d], [a, b, c]) == [d];
    }
    assert Missing([a, b, c], [a, c, d]) == [b] by {
      assert [a, b, c][1..] == [b, c] && [b, c][1..] == [c] && [c][1..] == [];
      assert Missing([c], [a, c, d]) == [];
      assert Missing([b, c], [a, c, d]) == [b];
    }
  }

  /** The first poll of the scenario below: everything fetched is added. */
  lemma HotScenarioFirstPoll(a: Post, b: Post, c: Post, t1: Tick)
    requires a != b && a != c && b != c
    requires t1.api(DefaultQuery(Hot, "test")) == Some([a, b, c])
    ensures Run(Hot, "test", Slot([], None), [t1], IdentityDiff)
      == Some(Observed(Slot([a, b, c], Some(t1.now)), [Update(Hot, PostsUpdate([], [a, b, c], [a, b, c], []))]))
  {
    DisjointListsDiffCompletely([], [a, b, c]);
    RunExtends(Hot, "test", Slot([], None), [], t1, IdentityDiff);
    var u1 := Update(Hot, PostsUpdate([], [a, b, c], [a, b, c], []));
    assert [] + [t1] == [t1] && [] + [u1] == [u1];
  }

  /** The first two polls of the scenario below. */
  lemma HotScenarioFirstTwoPolls(a: Post, b: Post, c: Post, d: Post, t1: Tick, t2: Tick)
    requires a != b && a != c && a != d && b != c && b != d && c != d
    requires t1.api(DefaultQuery(Hot, "test")) == Some([a, b, c])
    requires t2.api(DefaultQuery(Hot, "test")) == Some([a, c, d])
    ensures Run(Hot, "test", Slot([], None), [t1, t2], IdentityDiff)
      == Some(Observed(Slot([a, c, d], Some(t2.now)),
                       [Update(Hot, PostsUpdate([], [a, b, c], [a, b, c], [])),
                        Update(Hot, PostsUpdate([a, b, c], [a, c, d], [d], [b]))]))
  {
    HotScenarioFirstPoll(a, b, c, t1);
    ScenarioSecondDiff(a, b, c, d);
    RunExtends(Hot, "test", Slot([], None), [t1], t2, IdentityDiff);
    var u1 := Update(Hot, PostsUpdate([], [a, b, c], [a, b, c], []));
    var u2 := Update(Hot, PostsUpdate([a, b, c], [a, c, d], [d], [b]));
    assert [t1] + [t2] == [t1, t2] && [u1] + [u2] == [u1, u2];
  }

  /**
   * Monitoring "hot" posts of subreddit "test" with the identity comparison,
   * from a never-fetched empty slot: fetches of [A, B, C], [A, C, D] and
   * [A, C, D] raise two updates, the first adding everything and the second
   * adding D and removing B; the third fetch raises nothing.
   */
  lemma HotScenario(a: Post, b: Post, c: Post, d: Post, t1: Tick, t2: Tick, t3: Tick)
    requires a != b && a != c && a != d && b != c && b != d && c != d
    requires t1.api(DefaultQuery(Hot, "test")) == Some([a, b, c])
    requires t2.api(DefaultQuery(Hot, "test")) == Some([a, c, d])
    requires t3.api(DefaultQuery(Hot, "test")) == Some([a, c, d])
    ensures Run(Hot, "test", Slot([], None), [t1, t2, t3], IdentityDiff)
      == Some(Observed(Slot([a, c, d], Some(t3.now)),
                       [Update(Hot, PostsUpdate([], [a, b, c], [a, b, c], [])),
                        Update(Hot, PostsUpdate([a, b, c], [a, c, d], [d], [b]))]))
  {
    HotScenarioFirstTwoPolls(a, b, c, d, t1, t2);
    SameMembersAreUnchanged([a, c, d], [a, c, d]);
    RunExtends(Hot, "test", Slot([], None), [t1, t2], t3, IdentityDiff);
    assert [t1, t2] + [t3] == [t1, t2, t3];
    var us := [Update(Hot, PostsUpdate([], [a, b, c], [a, b, c], [])), Update(Hot, PostsUpdate([a, b, c], [a, c, d], [d], [b]))];
    assert us + [] == us;
  }
}
