/**
 * The comparison the poll loop makes between the listing it held and the
 * listing it just fetched. The controller calls `Listings.ListDiff`, whose
 * body is not part of this model: the poll takes it as an abstract
 * `Differ`. `IdentityDiff` is a reference comparison by post identity, used
 * to instantiate it in the scenario lemmas.
 */
module ListDiff {
  import opened ListingTypes

  /** What the comparison reports: whether the lists differ, and the added and removed posts. */
  datatype Diff = Diff(changed: bool, added: seq<Post>, removed: seq<Post>)

  /** `Listings.ListDiff(oldList, newList, out added, out removed)` as an abstract function. */
  type Differ = (seq<Post>, seq<Post>) -> Diff

  /** The posts of `s` that do not occur in `from`. */
  function Missing(s: seq<Post>, from: seq<Post>): (r: seq<Post>)
    ensures forall p :: p in r <==> p in s && p !in from
    ensures |r| <= |s|
    decreases |s|
  {
    if s == [] then []
    else (if s[0] in from then [] else [s[0]]) + Missing(s[1..], from)
  }

  /**
   * Added: the new posts not in the old list; removed: the old posts not in
   * the new list; changed: some post is in one list and not the other.
   */
  function IdentityDiff(before: seq<Post>, after: seq<Post>): (d: Diff)
    ensures forall p :: p in d.added <==> p in after && p !in before
    ensures forall p :: p in d.removed <==> p in before && p !in after
    ensures d.changed <==> exists p :: (p in before) != (p in after)
  {
    var added := Missing(after, before);
    var removed := Missing(before, after);
    assert added != [] ==> added[0] in after && added[0] !in before;
    assert removed != [] ==> removed[0] in before && removed[0] !in after;
    Diff(added != [] || removed != [], added, removed)
  }

  /** Nothing of `s` is dropped when none of it occurs in `from`. */
  lemma {:induction false} MissingOfDisjoint(s: seq<Post>, from: seq<Post>)
    requires forall p :: p in s ==> p !in from
    ensures Missing(s, from) == s
    decreases |s|
  {
    if s != [] {
      MissingOfDisjoint(s[1..], from);
      assert [s[0]] + s[1..] == s;
    }
  }

  /** Between lists with no post in common, everything new is added and everything old removed. */
  lemma DisjointListsDiffCompletely(before: seq<Post>, after: seq<Post>)
    requires forall p :: p in before ==> p !in after
    ensures IdentityDiff(before, after).added == after
    ensures IdentityDiff(before, after).removed == before
  {
    MissingOfDisjoint(after, before);
    MissingOfDisjoint(before, after);
  }

  /** Two lists holding the same posts, in any order, compare as unchanged. */
  lemma SameMembersAreUnchanged(before: seq<Post>, after: seq<Post>)
    requires forall p :: p in before <==> p in after
    ensures !IdentityDiff(before, after).changed
    ensures IdentityDiff(before, after).added == [] && IdentityDiff(before, after).removed == []
  {
  }
}
