/**
 * The freshness cache behind each listing property of the controller: a
 * slot holds the last fetched posts and the time they were fetched; a read
 * serves the slot while it is younger than 15 seconds and otherwise
 * refreshes it through the slot's `Get*` method.
 */
module TtlCache {
  import opened ListingTypes

  /** How long a fetched listing is served from memory: `AddSeconds(15)`. */
  const TtlSeconds: int := 15

  /** A listing field and its `*LastUpdated` timestamp (`None` is a null `DateTime?`). */
  datatype Slot = Slot(posts: seq<Post>, lastUpdated: Option<int>)

  /** The new state of a slot after an access, and what the access returned or threw. */
  datatype Access = Access(slot: Slot, result: Result<seq<Post>>)

  /** The getters' test: the timestamp is set and it plus 15 seconds is later than `now`. */
  predicate Fresh(lastUpdated: Option<int>, now: int) {
    lastUpdated.Some? && lastUpdated.value + TtlSeconds > now
  }

  /**
   * What a `Get*` method does to its own slot: a successful fetch is stamped
   * with `now`, stored and returned; a fetch that throws leaves the slot as
   * it was, because the stores come after the fetch.
   */
  function Refresh(s: Slot, now: int, fetched: Option<seq<Post>>): (r: Access)
    ensures fetched.Some? ==> r.result == Ok(fetched.value) && r.slot.posts == fetched.value && r.slot.lastUpdated == Some(now)
    ensures fetched.None? ==> r.slot == s && r.result == Err(FetchFailed)
  {
    match fetched
    case Some(posts) => Access(Slot(posts, Some(now)), Ok(posts))
    case None => Access(s, Err(FetchFailed))
  }

  /** A listing getter that tests its own timestamp (`Best`, ..., `ModQueue`). */
  function Read(s: Slot, now: int, fetched: Option<seq<Post>>): Access {
    if Fresh(s.lastUpdated, now) then Access(s, Ok(s.posts)) else Refresh(s, now, fetched)
  }

  /**
   * A getter that shows one slot but tests and refreshes another, as the
   * four mod-queue filter getters do with the mod-queue slot. The access's
   * slot is the new state of `guard`; `shown` never changes.
   */
  function ReadGuardedBy(shown: Slot, guard: Slot, now: int, fetched: Option<seq<Post>>): Access {
    if Fresh(guard.lastUpdated, now) then Access(guard, Ok(shown.posts)) else Refresh(guard, now, fetched)
  }

  /** The freshness test is "younger than the TTL", and a slot never fetched is never fresh. */
  lemma FreshMeansYoungerThanTtl(t: int, now: int)
    ensures Fresh(Some(t), now) <==> now - t < TtlSeconds
    ensures !Fresh(None, now)
  {
  }

  /**
   * A read returns the cached posts and leaves the slot alone, whatever the
   * web API would answer, exactly when the slot is fresh; otherwise it is
   * the slot's refresh.
   */
  lemma ReadServesCacheIffFresh(s: Slot, now: int)
    ensures Fresh(s.lastUpdated, now) ==> forall f :: Read(s, now, f) == Access(s, Ok(s.posts))
    ensures !Fresh(s.lastUpdated, now) ==> forall f :: Read(s, now, f) == Refresh(s, now, f)
  {
  }

  /** The guarded read is fresh or stale by the guard's timestamp alone. */
  lemma GuardedReadFollowsGuard(shown: Slot, guard: Slot, now: int)
    ensures Fresh(guard.lastUpdated, now) ==> forall f :: ReadGuardedBy(shown, guard, now, f) == Access(guard, Ok(shown.posts))
    ensures !Fresh(guard.lastUpdated, now) ==> forall f :: ReadGuardedBy(shown, guard, now, f) == Refresh(guard, now, f)
  {
  }

  /**
   * A slot that was never fetched is refreshed on its first read, whatever
   * posts it was seeded with.
   */
  lemma NeverFetchedReadFetches(seed: seq<Post>, shown: Slot, now: int, f: Option<seq<Post>>)
    ensures Read(Slot(seed, None), now, f) == Refresh(Slot(seed, None), now, f)
    ensures ReadGuardedBy(shown, Slot(seed, None), now, f) == Refresh(Slot(seed, None), now, f)
  {
  }

  /**
   * After a successful refresh at `t`, a read up to 14 seconds later returns
   * the refreshed posts unchanged and a read 15 or more seconds later
   * refreshes again.
   */
  lemma RefreshedSlotServedForTtl(s: Slot, t: int, posts: seq<Post>, now: int, f: Option<seq<Post>>)
    requires t <= now
    ensures var s1 := Refresh(s, t, Some(posts)).slot;
      now - t < TtlSeconds ==> Read(s1, now, f) == Access(s1, Ok(posts))
    ensures var s1 := Refresh(s, t, Some(posts)).slot;
      now - t >= TtlSeconds ==> Read(s1, now, f) == Refresh(s1, now, f)
  {
  }

  /** One read of a getter: the time it happens and what the web API would answer then. */
  datatype Request = Request(now: int, fetched: Option<seq<Post>>)

  /** A sequence of reads of one getter, in order: the final slot and what each read returned. */
  function ReadAll(s: Slot, rs: seq<Request>): (r: (Slot, seq<Result<seq<Post>>>))
    ensures |r.1| == |rs|
    decreases |rs|
  {
    if rs == [] then (s, [])
    else
      var a := Read(s, rs[0].now, rs[0].fetched);
      var rest := ReadAll(a.slot, rs[1..]);
      (rest.0, [a.result] + rest.1)
  }

  /**
   * Every read made before the slot's timestamp plus 15 seconds returns the
   * cached posts, and the slot is unchanged after all of them.
   */
  lemma {:induction false} ReadsWithinTtlServeSameList(s: Slot, rs: seq<Request>)
    requires s.lastUpdated.Some?
    requires forall i :: 0 <= i < |rs| ==> rs[i].now < s.lastUpdated.value + TtlSeconds
    ensures ReadAll(s, rs).0 == s
    ensures forall i :: 0 <= i < |rs| ==> ReadAll(s, rs).1[i] == Ok(s.posts)
    decreases |rs|
  {
    if rs != [] {
      assert Read(s, rs[0].now, rs[0].fetched) == Access(s, Ok(s.posts));
      ReadsWithinTtlServeSameList(s, rs[1..]);
      forall i | 1 <= i < |rs| ensures ReadAll(s, rs).1[i] == Ok(s.posts) {
        assert rs[1..][i - 1] == rs[i];
      }
    }
  }

  /**
   * After any sequence of reads, the slot is either the one it started as
   * or holds exactly the posts of one successful fetch paired with that
   * fetch's time: posts and timestamp are never torn apart.
   */
  lemma {:induction false} SlotComesFromOneFetch(s: Slot, rs: seq<Request>)
    ensures var last := ReadAll(s, rs).0;
      last == s || exists i :: 0 <= i < |rs| && rs[i].fetched.Some? && last == Slot(rs[i].fetched.value, Some(rs[i].now))
    decreases |rs|
  {
    if rs != [] {
      var a := Read(s, rs[0].now, rs[0].fetched);
      SlotComesFromOneFetch(a.slot, rs[1..]);
      var last := ReadAll(s, rs).0;
      assert last == ReadAll(a.slot, rs[1..]).0;
      if last == a.slot {
        if a.slot != s {
          assert rs[0].fetched.Some? && a.slot == Slot(rs[0].fetched.value, Some(rs[0].now));
        }
      } else {
        var i :| 0 <= i < |rs[1..]| && rs[1..][i].fetched.Some? && last == Slot(rs[1..][i].fetched.value, Some(rs[1..][i].now));
        assert rs[i + 1] == rs[1..][i];
      }
    }
  }

  /**
   * When reads come in time order and the slot was stamped no later than the
   * first of them, its timestamp never moves back.
   */
  lemma {:induction false} StampNeverMovesBack(s: Slot, rs: seq<Request>)
    requires forall i, j :: 0 <= i < j < |rs| ==> rs[i].now <= rs[j].now
    requires s.lastUpdated.Some? && rs != [] ==> s.lastUpdated.value <= rs[0].now
    ensures s.lastUpdated.Some? ==>
      ReadAll(s, rs).0.lastUpdated.Some? && ReadAll(s, rs).0.lastUpdated.value >= s.lastUpdated.value
    decreases |rs|
  {
    if rs != [] {
      var a := Read(s, rs[0].now, rs[0].fetched);
      assert a.slot.lastUpdated.Some? && |rs| > 1 ==> a.slot.lastUpdated.value <= rs[1..][0].now;
      StampNeverMovesBack(a.slot, rs[1..]);
    }
  }

  /**
   * The mod-queue filter getters test the mod-queue timestamp: with the mod
   * queue fetched at 0 and a filter list never fetched, a read at 1 returns
   * the filter's empty seed instead of fetching, which a getter guarded by
   * its own timestamp does; and once the mod queue is stale, the filter
   * getter returns the mod queue's posts.
   */
  lemma FilterGetterServesUnfetchedSeed(p: Post, q: Post)
    requires p != q
    ensures ReadGuardedBy(Slot([], None), Slot([p], Some(0)), 1, Some([q])).result == Ok([])
    ensures Read(Slot([], None), 1, Some([q])).result == Ok([q])
    ensures ReadGuardedBy(Slot([], None), Slot([p], Some(0)), TtlSeconds, Some([q])).result == Ok([q])
    ensures ReadGuardedBy(Slot([], None), Slot([p], Some(0)), TtlSeconds, Some([q])).slot == Slot([q], Some(TtlSeconds))
  {
  }
}
