/** The `Dashboard` component's state and its handlers. Each handler runs as
    one atomic step; the backend's answers are passed in as `Reply` values
    and the requests a handler sends are returned in order. */
module App {
  import opened Outcomes
  import opened Reactions
  import opened Entities
  import opened Sync
  import Location
  import Chatbot
  import Views

  const MatchingFailedAlert: string := "Could not load your listings. Make sure you have active listings."
  const ResponseSentAlert: string := "Response sent! The requester will see your listing."
  const ResponseFailedAlert: string := "Failed to send response."

  /** A snapshot of every field of the dashboard, to say what a handler
      leaves alone. */
  datatype Session = Session(
    coords: Option<Coords>,
    data: NearbyData,
    chatbotQuery: string,
    chatbotResponse: Option<ChatbotAnswer>,
    matchingListings: map<UrgentId, Option<seq<Listing>>>,
    showRespondModal: Option<UrgentId>,
    form: ListingForm,
    urgentForm: UrgentForm)

  /** The loop of `refreshData` over the returned listings: from an empty
      object, fetch each listing's reactions in turn and record its counts,
      or zeros when that fetch fails. */
  method LoadReactions(nearListings: seq<Listing>, reactionReplies: nat -> Reply<seq<ReactionEvent>>)
    returns (reactionsMap: map<ListingId, Counts>, fetches: seq<Request>)
    ensures reactionsMap == ReactionsFrom(nearListings, reactionReplies)
    ensures fetches == ReactionRequests(nearListings)
  {
    reactionsMap, fetches := map[], [];
    for i := 0 to |nearListings|
      invariant reactionsMap == ReactionsFrom(nearListings[..i], reactionReplies)
      invariant fetches == ReactionRequests(nearListings[..i])
    {
      var listing := nearListings[i];
      assert nearListings[..i + 1][..i] == nearListings[..i];
      fetches := fetches + [GetReactions(listing.id)];
      var counts: Counts;
      match reactionReplies(i) {
        case Ok(listingReactions) =>
          counts := CountReactions(listingReactions);
        case Failed =>
          counts := Zero;
      }
      reactionsMap := reactionsMap[listing.id := counts];
    }
    assert nearListings[..|nearListings|] == nearListings;
  }

  class Dashboard {
    var coords: Option<Coords>
    var listings: seq<Listing>
    var urgent: seq<UrgentNeed>
    var reactions: map<ListingId, Counts>
    var chatbotQuery: string
    var chatbotResponse: Option<ChatbotAnswer>
    /** Candidates per urgent need; `None` when the reply had no `listings` field. */
    var matchingListings: map<UrgentId, Option<seq<Listing>>>
    var showRespondModal: Option<UrgentId>
    var form: ListingForm
    var urgentForm: UrgentForm

    function Data(): NearbyData
      reads this
    {
      NearbyData(listings, urgent, reactions)
    }

    function State(): Session
      reads this
    {
      Session(coords, Data(), chatbotQuery, chatbotResponse, matchingListings,
              showRespondModal, form, urgentForm)
    }

    /** The reaction map covers exactly the listings shown, and an open modal
        always names an urgent need whose candidates were fetched. */
    ghost predicate Valid()
      reads this
    {
      && Covers(Data())
      && (showRespondModal.Some? ==> showRespondModal.value in matchingListings)
    }

    /** The respond modal as it renders from the current state. */
    function Modal(): Views.RespondModal
      reads this
    {
      Views.RespondModalView(showRespondModal, matchingListings)
    }

    /** The initial `useState` values. */
    constructor ()
      ensures Valid()
      ensures State() == Session(None, NearbyData([], [], map[]), "", None, map[], None,
                                 InitialListingForm, InitialUrgentForm)
      ensures Modal().Hidden?
    {
      coords := None;
      listings, urgent, reactions := [], [], map[];
      chatbotQuery, chatbotResponse := "", None;
      matchingListings, showRespondModal := map[], None;
      form, urgentForm := InitialListingForm, InitialUrgentForm;
    }

    /** `refreshData(c)`: both range queries, then one reaction fetch per
        returned listing in order, each failure turned into zero counts; the
        results replace listings, urgent needs and reactions. */
    method RefreshData(c: Option<Coords>, replies: RefreshReplies) returns (issued: seq<Request>)
      requires Valid()
      modifies this
      ensures Valid()
      ensures issued == RefreshRequests(c, replies)
      ensures Data() == Refreshed(c, replies, old(Data()))
      ensures State() == old(State()).(data := Data())
    {
      if c.None? {
        return [];
      }
      var p := c.value;
      issued := [GetListings(p.lat, p.lng, NearbyRadiusKm), GetUrgentNearby(p.lat, p.lng, NearbyRadiusKm)];
      if replies.listings.Failed? || replies.urgent.Failed? {
        return;
      }
      var nearListings := replies.listings.value;
      listings, urgent := nearListings, replies.urgent.value;
      var reactionsMap, fetches := LoadReactions(nearListings, replies.reactionReplies);
      reactions := reactionsMap;
      issued := issued + fetches;
      ReactionsFromKeys(nearListings, replies.reactionReplies);
    }

    /** The mount effect: the device position, or the fallback when the
        position callback fails, becomes the coordinates, and a refresh runs
        with them. */
    method Mount(position: Option<Coords>, replies: RefreshReplies) returns (issued: seq<Request>)
      requires Valid()
      modifies this
      ensures Valid()
      ensures coords == Some(Location.ResolveCoords(position))
      ensures issued == RefreshRequests(coords, replies)
      ensures Data() == Refreshed(coords, replies, old(Data()))
      ensures State() == old(State()).(coords := coords, data := Data())
    {
      var c := Location.ResolveCoords(position);
      coords := Some(c);
      issued := RefreshData(Some(c), replies);
    }

    /** `handleCreateListing`: without coordinates nothing happens. Otherwise
        the form is posted with the coordinates; a rejected post ends the
        handler (there is no `catch`), a successful one clears title and
        description only and refreshes. */
    method CreateListing(post: Reply<()>, replies: RefreshReplies) returns (issued: seq<Request>)
      requires Valid()
      modifies this
      ensures Valid()
      ensures old(coords).None? ==> issued == [] && State() == old(State())
      ensures old(coords).Some? ==>
        var c := old(coords).value;
        issued == [PostListing(Located(old(form), c.lat, c.lng))]
                  + (if post.Ok? then RefreshRequests(old(coords), replies) else [])
      ensures old(coords).Some? && post.Failed? ==> State() == old(State())
      ensures old(coords).Some? && post.Ok? ==>
        && form == old(form).(title := "", description := "")
        && Data() == Refreshed(old(coords), replies, old(Data()))
        && State() == old(State()).(form := form, data := Data())
    {
      if coords.None? {
        return [];
      }
      var c := coords.value;
      var payload := Located(form, c.lat, c.lng);
      issued := [PostListing(payload)];
      if post.Failed? {
        return;
      }
      form := form.(title := "", description := "");
      var refreshed := RefreshData(coords, replies);
      issued := issued + refreshed;
    }

    /** `handleCreateUrgent`: the same shape as creating a listing, with the
        urgent form; the radius survives a successful post. */
    method CreateUrgent(post: Reply<()>, replies: RefreshReplies) returns (issued: seq<Request>)
      requires Valid()
      modifies this
      ensures Valid()
      ensures old(coords).None? ==> issued == [] && State() == old(State())
      ensures old(coords).Some? ==>
        var c := old(coords).value;
        issued == [PostUrgent(Located(old(urgentForm), c.lat, c.lng))]
                  + (if post.Ok? then RefreshRequests(old(coords), replies) else [])
      ensures old(coords).Some? && post.Failed? ==> State() == old(State())
      ensures old(coords).Some? && post.Ok? ==>
        && urgentForm == UrgentForm("", "", old(urgentForm).radiusKm)
        && Data() == Refreshed(old(coords), replies, old(Data()))
        && State() == old(State()).(urgentForm := urgentForm, data := Data())
    {
      if coords.None? {
        return [];
      }
      var c := coords.value;
      var payload := Located(urgentForm, c.lat, c.lng);
      issued := [PostUrgent(payload)];
      if post.Failed? {
        return;
      }
      urgentForm := urgentForm.(title := "", description := "");
      var refreshed := RefreshData(coords, replies);
      issued := issued + refreshed;
    }

    /** `handleReaction`: post the reaction, refresh on success; a failure is
        logged and changes nothing. */
    method React(reactionType: string, listingId: ListingId, post: Reply<()>, replies: RefreshReplies)
      returns (issued: seq<Request>)
      requires Valid()
      modifies this
      ensures Valid()
      ensures issued == [PostReaction(listingId, reactionType)]
                        + (if post.Ok? then RefreshRequests(old(coords), replies) else [])
      ensures Data() == if post.Ok? then Refreshed(old(coords), replies, old(Data())) else old(Data())
      ensures State() == old(State()).(data := Data())
    {
      issued := [PostReaction(listingId, reactionType)];
      if post.Ok? {
        var refreshed := RefreshData(coords, replies);
        issued := issued + refreshed;
      }
    }

    /** `handleUpdateStatus`: send the new status, refresh on success; a
        failure is logged and changes nothing. The current status is not
        checked here: only the rendered controls are gated on it. */
    method UpdateStatus(listingId: ListingId, newStatus: string, patch: Reply<()>, replies: RefreshReplies)
      returns (issued: seq<Request>)
      requires Valid()
      modifies this
      ensures Valid()
      ensures issued == [PatchListing(listingId, newStatus)]
                        + (if patch.Ok? then RefreshRequests(old(coords), replies) else [])
      ensures Data() == if patch.Ok? then Refreshed(old(coords), replies, old(Data())) else old(Data())
      ensures State() == old(State()).(data := Data())
    {
      issued := [PatchListing(listingId, newStatus)];
      if patch.Ok? {
        var refreshed := RefreshData(coords, replies);
        issued := issued + refreshed;
      }
    }

    /** The chatbot input's `onChange`. */
    method TypeChatbotQuery(query: string)
      requires Valid()
      modifies this
      ensures Valid()
      ensures State() == old(State()).(chatbotQuery := query)
    {
      chatbotQuery := query;
    }

    /** The listing form's `onChange` handlers, any number of fields at once. */
    method EditListingForm(edited: ListingForm)
      requires Valid()
      modifies this
      ensures Valid()
      ensures State() == old(State()).(form := edited)
    {
      form := edited;
    }

    /** The urgent form's `onChange` handlers, any number of fields at once. */
    method EditUrgentForm(edited: UrgentForm)
      requires Valid()
      modifies this
      ensures Valid()
      ensures State() == old(State()).(urgentForm := edited)
    {
      urgentForm := edited;
    }

    /** `handleChatbotQuery`: a blank query or missing coordinates send
        nothing; otherwise the untrimmed query goes out with the coordinates
        and a successful answer replaces the shown one. */
    method SubmitChatbotQuery(reply: Reply<ChatbotAnswer>) returns (issued: seq<Request>)
      requires Valid()
      modifies this
      ensures Valid()
      ensures !Chatbot.WillQuery(old(chatbotQuery), old(coords)) ==> issued == [] && State() == old(State())
      ensures Chatbot.WillQuery(old(chatbotQuery), old(coords)) ==>
        && issued == [PostChatbotQuery(old(chatbotQuery), old(coords).value.lat, old(coords).value.lng)]
        && State() == old(State()).(chatbotResponse :=
             if reply.Ok? then Some(reply.value) else old(chatbotResponse))
    {
      if Chatbot.Trim(chatbotQuery) == [] || coords.None? {
        return [];
      }
      issued := [PostChatbotQuery(chatbotQuery, coords.value.lat, coords.value.lng)];
      if reply.Ok? {
        chatbotResponse := Some(reply.value);
      }
    }

    /** `handleGetMatchingListings`: on success the reply's `listings` is
        stored under this urgent id, every other id keeps its entry, and the
        modal is opened for it; on failure nothing changes and an alert
        tells the user to create a listing. */
    method GetMatchingListings(urgentId: UrgentId, reply: Reply<Option<seq<Listing>>>)
      returns (issued: seq<Request>, alert: Option<string>)
      requires Valid()
      modifies this
      ensures Valid()
      ensures issued == [GetMatching(urgentId)]
      ensures reply.Failed? ==> alert == Some(MatchingFailedAlert) && State() == old(State())
      ensures reply.Ok? ==>
        && alert == None
        && State() == old(State()).(matchingListings := old(matchingListings)[urgentId := reply.value],
                                    showRespondModal := Some(urgentId))
      ensures reply.Ok? ==> forall u :: u != urgentId ==>
        && (u in matchingListings <==> u in old(matchingListings))
        && (u in matchingListings ==> matchingListings[u] == old(matchingListings)[u])
      ensures reply.Ok? && reply.value.Some? && urgentId != "" ==>
        Modal() == if |reply.value.value| == 0 then Views.NoCandidates(urgentId)
                   else Views.Candidates(urgentId, reply.value.value)
    {
      issued := [GetMatching(urgentId)];
      match reply {
        case Ok(listingsField) =>
          matchingListings := matchingListings[urgentId := listingsField];
          showRespondModal := Some(urgentId);
          alert := None;
        case Failed =>
          alert := Some(MatchingFailedAlert);
      }
    }

    /** `handleRespondWithListing`: success closes the modal and confirms;
        failure keeps the modal and its candidates so the user can retry. */
    method RespondWithListing(urgentId: UrgentId, listingId: ListingId, post: Reply<()>)
      returns (issued: seq<Request>, alert: Option<string>)
      requires Valid()
      modifies this
      ensures Valid()
      ensures issued == [PostRespond(urgentId, listingId)]
      ensures post.Ok? ==>
        && alert == Some(ResponseSentAlert)
        && Modal().Hidden?
        && State() == old(State()).(showRespondModal := None)
      ensures post.Failed? ==>
        && alert == Some(ResponseFailedAlert)
        && Modal() == old(Modal())
        && State() == old(State())
    {
      issued := [PostRespond(urgentId, listingId)];
      if post.Ok? {
        showRespondModal := None;
        alert := Some(ResponseSentAlert);
      } else {
        alert := Some(ResponseFailedAlert);
      }
    }

    /** The overlay click and the Close button: the modal closes, while the
        stored candidates stay in `matchingListings`. */
    method CloseRespondModal()
      requires Valid()
      modifies this
      ensures Valid()
      ensures Modal().Hidden?
      ensures State() == old(State()).(showRespondModal := None)
      ensures matchingListings == old(matchingListings)
    {
      showRespondModal := None;
    }
  }
}
