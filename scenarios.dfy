/** Client code that drives a dashboard using only the handlers' contracts:
    a refresh at (10, 20) where listing A has events like, like, helpful and
    listing B's fetch fails; a refresh whose urgent query fails; the
    matching workflow with a failed fetch, an empty and a non-empty
    candidate list, a failed and then a successful response; and form
    handling on creation. */
module Scenarios {
  import opened Outcomes
  import opened Reactions
  import opened Entities
  import opened Sync
  import opened App
  import Views

  function Sample(id: ListingId, title: string): Listing
  {
    Listing(id, title, "", "offer", true, false, "", "active", 10.0, 20.0)
  }

  const EventsA: seq<ReactionEvent> :=
    [ReactionEvent("A", Like), ReactionEvent("A", Like), ReactionEvent("A", Helpful)]

  /** Listing A's events are like, like, helpful; listing B's fetch fails. */
  function FetchReplies(i: nat): Reply<seq<ReactionEvent>>
  {
    if i == 0 then Ok(EventsA) else Failed
  }

  lemma EventsACounts()
    ensures CountsOf(EventsA) == Counts(2, 1, 0, 0)
  {
    var like, helpful := ReactionEvent("A", Like), ReactionEvent("A", Helpful);
    assert [like][..0] == [];
    assert CountsOf([like]) == Counts(1, 0, 0, 0);
    assert [like, like][..1] == [like];
    assert CountsOf([like, like]) == Counts(2, 0, 0, 0);
    assert EventsA[..2] == [like, like];
    assert EventsA[2] == helpful;
  }

  lemma TwoListingReactions(a: Listing, b: Listing)
    requires a.id == "A" && b.id == "B"
    ensures ReactionsFrom([a, b], FetchReplies) == map["A" := Counts(2, 1, 0, 0), "B" := Zero]
  {
    EventsACounts();
    ReactionsFromSnoc([], a, FetchReplies);
    ReactionsFromSnoc([a], b, FetchReplies);
    assert [] + [a] == [a] && [a] + [b] == [a, b];
  }

  /** Coordinates (10, 20), two listings and one urgent need; counts are
      {2, 1, 0, 0} for A and all zeros for B. */
  method RefreshWithOneFailedFetch()
  {
    var a, b := Sample("A", "Ladder"), Sample("B", "Drill");
    var need := UrgentNeed("U", "Bread", "", 2.0, 10.0, 20.0);
    var replies := RefreshReplies(Ok([a, b]), Ok([need]), FetchReplies);
    var d := new Dashboard();
    var issued := d.Mount(Some(Coords(10.0, 20.0)), replies);
    TwoListingReactions(a, b);
    assert d.listings == [a, b] && d.urgent == [need];
    assert d.reactions == map["A" := Counts(2, 1, 0, 0), "B" := Zero];
    assert [a, b][..1] == [a];
    assert issued == [GetListings(10.0, 20.0, 3.0), GetUrgentNearby(10.0, 20.0, 3.0),
                      GetReactions("A"), GetReactions("B")];
  }

  /** A failed range query after a successful refresh keeps what was shown. */
  method FailedRefreshKeepsData()
  {
    var a := Sample("A", "Ladder");
    var d := new Dashboard();
    var first := d.Mount(None, RefreshReplies(Ok([a]), Ok([]), i => Failed));
    assert d.coords == Some(Coords(0.0, 0.0));
    assert [a][..0] == [];
    assert d.reactions == map["A" := Zero];
    var second := d.RefreshData(d.coords, RefreshReplies(Ok([]), Failed, i => Failed));
    assert d.listings == [a] && d.reactions == map["A" := Zero];
    assert |second| == 2;
  }

  /** An empty candidate list opens the modal in its "no matching listings"
      state; a failed fetch leaves it closed. A failed response keeps the
      candidates for a retry; closing keeps them stored. */
  method MatchingWorkflow()
  {
    var d := new Dashboard();
    var issued, alert := d.GetMatchingListings("U", Failed);
    assert d.Modal() == Views.Hidden && alert == Some(MatchingFailedAlert);
    issued, alert := d.GetMatchingListings("U", Ok(Some([])));
    assert d.Modal() == Views.NoCandidates("U");
    var mine := Sample("M", "Bread maker");
    issued, alert := d.GetMatchingListings("U", Ok(Some([mine])));
    assert d.Modal() == Views.Candidates("U", [mine]);
    issued, alert := d.RespondWithListing("U", "M", Failed);
    assert d.Modal() == Views.Candidates("U", [mine]) && alert == Some(ResponseFailedAlert);
    issued, alert := d.RespondWithListing("U", "M", Ok(()));
    assert d.Modal() == Views.Hidden && d.matchingListings["U"] == Some([mine]);
  }

  /** Creating a listing clears only title and description; a rejected post
      keeps the whole form. */
  method CreateListingKeepsDefaults()
  {
    var d := new Dashboard();
    var none := d.CreateListing(Ok(()), RefreshReplies(Failed, Failed, i => Failed));
    assert none == [];
    var issued := d.Mount(Some(Coords(10.0, 20.0)), RefreshReplies(Failed, Failed, i => Failed));
    d.EditListingForm(ListingForm("Ladder", "Tall", "offer", true, false, "tools"));
    issued := d.CreateListing(Failed, RefreshReplies(Failed, Failed, i => Failed));
    assert d.form.title == "Ladder";
    issued := d.CreateListing(Ok(()), RefreshReplies(Failed, Failed, i => Failed));
    assert issued[0] == PostListing(Located(ListingForm("Ladder", "Tall", "offer", true, false, "tools"), 10.0, 20.0));
    assert d.form == ListingForm("", "", "offer", true, false, "tools");
  }
}
