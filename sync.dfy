/** `refreshData`: what one refresh of the nearby data fetches and what it
    installs. */
module Sync {
  import opened Outcomes
  import opened Reactions
  import opened Entities

  /** The backend's answers during one refresh: the two range queries, and
      the reply to the i-th per-listing reaction fetch of that refresh. */
  datatype RefreshReplies = RefreshReplies(
    listings: Reply<seq<Listing>>,
    urgent: Reply<seq<UrgentNeed>>,
    reactionReplies: nat -> Reply<seq<ReactionEvent>>)

  /** The part of the session a refresh replaces. */
  datatype NearbyData = NearbyData(
    listings: seq<Listing>, urgent: seq<UrgentNeed>, reactions: map<ListingId, Counts>)

  function ListingIds(ls: seq<Listing>): set<ListingId>
  {
    set l | l in ls :: l.id
  }

  /** The reaction map covers exactly the listings on display. */
  ghost predicate Covers(d: NearbyData)
  {
    d.reactions.Keys == ListingIds(d.listings)
  }

  /** One listing's counts: its events counted, or all zeros when the fetch
      failed (the inner `catch`). */
  function FetchedCounts(reply: Reply<seq<ReactionEvent>>): Counts
  {
    match reply
    case Ok(events) => CountsOf(events)
    case Failed => Zero
  }

  /** The map the loop builds from an empty object, one entry written per
      listing in order. */
  function ReactionsFrom(ls: seq<Listing>, replies: nat -> Reply<seq<ReactionEvent>>): map<ListingId, Counts>
  {
    if ls == [] then map[]
    else ReactionsFrom(ls[..|ls| - 1], replies)[ls[|ls| - 1].id := FetchedCounts(replies(|ls| - 1))]
  }

  /** Appending a listing writes one more entry: its own fetch's counts. */
  lemma ReactionsFromSnoc(init: seq<Listing>, last: Listing, replies: nat -> Reply<seq<ReactionEvent>>)
    ensures ReactionsFrom(init + [last], replies) == ReactionsFrom(init, replies)[last.id := FetchedCounts(replies(|init|))]
  {
  }

  /** The reaction fetches the loop issues, one per listing in order. */
  function ReactionRequests(ls: seq<Listing>): (rs: seq<Request>)
    ensures |rs| == |ls|
    ensures forall i :: 0 <= i < |ls| ==> rs[i] == GetReactions(ls[i].id)
  {
    if ls == [] then [] else ReactionRequests(ls[..|ls| - 1]) + [GetReactions(ls[|ls| - 1].id)]
  }

  /** What a refresh with coordinates `c` sends: nothing without coordinates;
      otherwise both range queries, and the reaction fetches only when both
      range queries succeeded. */
  function RefreshRequests(c: Option<Coords>, replies: RefreshReplies): seq<Request>
  {
    match c
    case None => []
    case Some(p) =>
      [GetListings(p.lat, p.lng, NearbyRadiusKm), GetUrgentNearby(p.lat, p.lng, NearbyRadiusKm)]
      + if replies.listings.Ok? && replies.urgent.Ok? then ReactionRequests(replies.listings.value) else []
  }

  /** The nearby data after a refresh with coordinates `c`, from `prior`. */
  function Refreshed(c: Option<Coords>, replies: RefreshReplies, prior: NearbyData): NearbyData
  {
    if c.None? || replies.listings.Failed? || replies.urgent.Failed? then prior
    else NearbyData(replies.listings.value, replies.urgent.value,
                    ReactionsFrom(replies.listings.value, replies.reactionReplies))
  }

  /** The keys of the rebuilt map are exactly the ids of the listings. */
  lemma {:induction false} ReactionsFromKeys(ls: seq<Listing>, replies: nat -> Reply<seq<ReactionEvent>>)
    ensures ReactionsFrom(ls, replies).Keys == ListingIds(ls)
  {
    if ls != [] {
      var init := ls[..|ls| - 1];
      ReactionsFromKeys(init, replies);
      assert ls == init + [ls[|ls| - 1]];
      assert ListingIds(ls) == ListingIds(init) + {ls[|ls| - 1].id};
    }
  }

  /** A listing's entry is decided by the reply to its own fetch alone: the
      last fetch for that id wins, and a failed fetch yields all zeros
      without touching any other listing's entry. */
  lemma {:induction false} ReactionsFromAt(ls: seq<Listing>, replies: nat -> Reply<seq<ReactionEvent>>, i: nat)
    requires i < |ls|
    requires forall j :: i < j < |ls| ==> ls[j].id != ls[i].id
    ensures ls[i].id in ReactionsFrom(ls, replies)
    ensures ReactionsFrom(ls, replies)[ls[i].id] == FetchedCounts(replies(i))
  {
    var k := |ls| - 1;
    if i < k {
      var init := ls[..k];
      assert init[i] == ls[i];
      assert forall j :: i < j < |init| ==> init[j] == ls[j];
      ReactionsFromAt(init, replies, i);
    }
  }

  /** With distinct ids, every listing gets the counts of its own fetch:
      aggregated events on success, zeros on failure. */
  lemma ReactionsFromDistinct(ls: seq<Listing>, replies: nat -> Reply<seq<ReactionEvent>>)
    requires forall i, j :: 0 <= i < j < |ls| ==> ls[i].id != ls[j].id
    ensures forall i :: 0 <= i < |ls| ==> ls[i].id in ReactionsFrom(ls, replies)
    ensures forall i :: 0 <= i < |ls| && replies(i).Ok? ==>
      ReactionsFrom(ls, replies)[ls[i].id] == CountsOf(replies(i).value)
    ensures forall i :: 0 <= i < |ls| && replies(i).Failed? ==>
      ReactionsFrom(ls, replies)[ls[i].id] == Zero
  {
    forall i | 0 <= i < |ls|
      ensures ls[i].id in ReactionsFrom(ls, replies)
      ensures ReactionsFrom(ls, replies)[ls[i].id] == FetchedCounts(replies(i))
    {
      ReactionsFromAt(ls, replies, i);
    }
  }

  /** A refresh without coordinates, or with a failed range query, leaves
      listings, urgent needs and reactions exactly as they were; both range
      queries still go out once there are coordinates, and no reaction fetch. */
  lemma RefreshKeepsPriorOnFailure(c: Option<Coords>, replies: RefreshReplies, prior: NearbyData)
    requires c.None? || replies.listings.Failed? || replies.urgent.Failed?
    ensures Refreshed(c, replies, prior) == prior
    ensures c.None? ==> RefreshRequests(c, replies) == []
    ensures c.Some? ==>
      RefreshRequests(c, replies) == [GetListings(c.value.lat, c.value.lng, NearbyRadiusKm), GetUrgentNearby(c.value.lat, c.value.lng, NearbyRadiusKm)]
  {
  }

  /** A successful refresh installs the two query results and a reaction map
      built from nothing: the prior map plays no part in it. */
  lemma RefreshReplacesOnSuccess(c: Coords, replies: RefreshReplies, prior: NearbyData, other: NearbyData)
    requires replies.listings.Ok? && replies.urgent.Ok?
    ensures var d := Refreshed(Some(c), replies, prior);
      && d.listings == replies.listings.value
      && d.urgent == replies.urgent.value
      && d == Refreshed(Some(c), replies, other)
      && Covers(d)
  {
    ReactionsFromKeys(replies.listings.value, replies.reactionReplies);
  }

  /** Every refresh keeps the reaction map covering the listings. */
  lemma RefreshKeepsCover(c: Option<Coords>, replies: RefreshReplies, prior: NearbyData)
    requires Covers(prior)
    ensures Covers(Refreshed(c, replies, prior))
  {
    if c.Some? && replies.listings.Ok? && replies.urgent.Ok? {
      ReactionsFromKeys(replies.listings.value, replies.reactionReplies);
    }
  }
}
