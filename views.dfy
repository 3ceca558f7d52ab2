/** What the dashboard derives from its state when it renders: the counts
    shown per listing, the status controls, and the respond modal. */
module Views {
  import opened Outcomes
  import opened Reactions
  import opened Entities
  import opened Sync

  const Active: string := "active"
  const Reserved: string := "reserved"
  const Completed: string := "completed"

  /** `reactions[id] || { all zeros }`: the counts shown under a listing. */
  function DisplayedCounts(reactions: map<ListingId, Counts>, id: ListingId): (c: Counts)
    ensures id in reactions ==> c == reactions[id]
    ensures id !in reactions ==> c == Zero && c.Total() == 0
  {
    if id in reactions then reactions[id] else Zero
  }

  /** After a refresh whose range queries succeed, each listing shows the
      counts of its own (last) reaction fetch: aggregated events when that
      fetch succeeded, zeros when it failed, whatever the other fetches did. */
  lemma ShownCountsAfterRefresh(c: Coords, replies: RefreshReplies, prior: NearbyData, i: nat)
    requires replies.listings.Ok? && replies.urgent.Ok?
    requires i < |replies.listings.value|
    requires forall j :: i < j < |replies.listings.value| ==>
      replies.listings.value[j].id != replies.listings.value[i].id
    ensures var d := Refreshed(Some(c), replies, prior);
      && d.listings[i] == replies.listings.value[i]
      && DisplayedCounts(d.reactions, d.listings[i].id) == FetchedCounts(replies.reactionReplies(i))
  {
    ReactionsFromAt(replies.listings.value, replies.reactionReplies, i);
  }

  /** Under the dashboard's invariant every listing shown has its own map
      entry, so the zero fallback is never what a listing displays then. */
  lemma CoveredListingShowsEntry(d: NearbyData, l: Listing)
    requires Covers(d) && l in d.listings
    ensures l.id in d.reactions
    ensures DisplayedCounts(d.reactions, l.id) == d.reactions[l.id]
  {
  }

  /** The status buttons offered under a listing, each naming the status it
      requests: both when the status is "active", none otherwise. */
  function StatusActions(status: string): (actions: seq<string>)
    ensures |actions| > 0 <==> status == Active
    ensures forall a :: a in actions ==> a == Reserved || a == Completed
    ensures status == Active ==> Reserved in actions && Completed in actions
  {
    if status == Active then [Reserved, Completed] else []
  }

  /** A history of statuses in which every step is one of the buttons the
      previous status offered. */
  ghost predicate FollowsOfferedActions(history: seq<string>)
  {
    forall i :: 0 <= i < |history| - 1 ==> history[i + 1] in StatusActions(history[i])
  }

  /** One step of an offered history, stated without a precondition. */
  lemma OfferedStep(history: seq<string>, i: nat)
    ensures FollowsOfferedActions(history) && i + 1 < |history| ==>
      history[i + 1] in StatusActions(history[i])
  {
  }

  /** Starting from "active" and only pressing offered buttons, a listing
      makes at most one transition, to "reserved" or "completed", and then
      offers nothing more. */
  lemma OfferedHistoryShape(history: seq<string>)
    requires |history| > 0 && history[0] == Active
    requires FollowsOfferedActions(history)
    ensures |history| <= 2
    ensures |history| == 2 ==> (history[1] == Reserved || history[1] == Completed)
    ensures |history| == 2 ==> StatusActions(history[1]) == []
  {
    OfferedStep(history, 0);
    OfferedStep(history, 1);
  }

  /** The respond modal as rendered. */
  datatype RespondModal =
    | Hidden
    | NoCandidates(urgentId: UrgentId)                          // "No matching listings found."
    | Candidates(urgentId: UrgentId, candidates: seq<Listing>)  // one "Use this listing" button each

  /** `showRespondModal && matchingListings[showRespondModal]`, then the
      length test inside the modal. An id is truthy unless it is the empty
      text; a stored list is truthy even when empty, and an absent or
      `undefined` entry is not. */
  function RespondModalView(show: Option<UrgentId>, matching: map<UrgentId, Option<seq<Listing>>>): (v: RespondModal)
    ensures v.Hidden? <==> (show.None? || show.value == "" || show.value !in matching || matching[show.value].None?)
    ensures !v.Hidden? ==> show == Some(v.urgentId) && v.urgentId in matching
    ensures v.NoCandidates? ==> matching[v.urgentId] == Some([])
    ensures v.Candidates? ==> matching[v.urgentId] == Some(v.candidates) && |v.candidates| > 0
  {
    if show.None? || show.value == "" || show.value !in matching || matching[show.value].None? then Hidden
    else
      var ls := matching[show.value].value;
      if |ls| > 0 then Candidates(show.value, ls) else NoCandidates(show.value)
  }
}
