/** The `forEach` counter of `refreshData`: the four per-listing reaction
    buckets and how a raw list of reaction events is folded into them. */
module Reactions {

  type ListingId = string

  /** One raw reaction record; its type is free text as far as the client knows. */
  datatype ReactionEvent = ReactionEvent(listingId: ListingId, reactionType: string)

  const Like: string := "like"
  const Helpful: string := "helpful"
  const Available: string := "available"
  const Unavailable: string := "unavailable"

  /** The buckets of a fresh counter object. */
  const KnownTypes: set<string> := {Like, Helpful, Available, Unavailable}

  /** `{ like, helpful, available, unavailable }`: exactly four buckets. */
  datatype Counts = Counts(like: nat, helpful: nat, available: nat, unavailable: nat)
  {
    /** The bucket named `t`; a name with no bucket reads as zero. */
    function Get(t: string): nat
    {
      if t == Like then like
      else if t == Helpful then helpful
      else if t == Available then available
      else if t == Unavailable then unavailable
      else 0
    }

    function Total(): nat
    {
      like + helpful + available + unavailable
    }

    function Plus(other: Counts): Counts
    {
      Counts(like + other.like, helpful + other.helpful,
             available + other.available, unavailable + other.unavailable)
    }
  }

  /** The all-zero counter, used both as the loop's start and as the value
      recorded for a listing whose reaction fetch failed. */
  const Zero: Counts := Counts(0, 0, 0, 0)

  /** Two counters are equal as soon as they agree on the four known names. */
  lemma CountsEqualByBuckets(c: Counts, d: Counts)
    requires forall t :: t in KnownTypes ==> c.Get(t) == d.Get(t)
    ensures c == d
  {
  }

  /** One step of the inner `forEach`: the bucket named `t` goes up by one
      when there is such a bucket; any other name leaves the counter alone. */
  function Bump(c: Counts, t: string): Counts
  {
    if t == Like then c.(like := c.like + 1)
    else if t == Helpful then c.(helpful := c.helpful + 1)
    else if t == Available then c.(available := c.available + 1)
    else if t == Unavailable then c.(unavailable := c.unavailable + 1)
    else c
  }

  /** `Bump` adds one to the bucket named `t` and to no other, and nothing
      at all for a name without a bucket. */
  lemma BumpBuckets(c: Counts, t: string)
    ensures forall k :: k in KnownTypes ==> Bump(c, t).Get(k) == c.Get(k) + (if k == t then 1 else 0)
    ensures t !in KnownTypes ==> Bump(c, t) == c
    ensures Bump(c, t).Total() == c.Total() + (if t in KnownTypes then 1 else 0)
  {
  }

  /** The counter after folding `Bump` over the events in order, from `Zero`. */
  function CountsOf(events: seq<ReactionEvent>): Counts
  {
    if events == [] then Zero
    else Bump(CountsOf(events[..|events| - 1]), events[|events| - 1].reactionType)
  }

  /** The reaction types of the events, in order. */
  function TypesOf(events: seq<ReactionEvent>): (types: seq<string>)
    ensures |types| == |events|
    ensures forall i :: 0 <= i < |events| ==> types[i] == events[i].reactionType
  {
    if events == [] then [] else TypesOf(events[..|events| - 1]) + [events[|events| - 1].reactionType]
  }

  /** The events whose type names a bucket, in order. */
  function KnownOnly(events: seq<ReactionEvent>): (known: seq<ReactionEvent>)
    ensures forall e :: e in known ==> e in events && e.reactionType in KnownTypes
    ensures |known| <= |events|
  {
    if events == [] then []
    else
      var last := events[|events| - 1];
      KnownOnly(events[..|events| - 1]) + (if last.reactionType in KnownTypes then [last] else [])
  }

  lemma TypesOfAppend(a: seq<ReactionEvent>, b: seq<ReactionEvent>)
    ensures TypesOf(a + b) == TypesOf(a) + TypesOf(b)
  {
  }

  /** Each bucket holds exactly the number of events of that type: the
      multiplicity of the type among the events' types. */
  lemma {:induction false} CountsOfTallies(events: seq<ReactionEvent>)
    ensures forall t :: t in KnownTypes ==> CountsOf(events).Get(t) == multiset(TypesOf(events))[t]
  {
    if events != [] {
      var init := events[..|events| - 1];
      var last := events[|events| - 1];
      CountsOfTallies(init);
      BumpBuckets(CountsOf(init), last.reactionType);
      assert events == init + [last];
      TypesOfAppend(init, [last]);
      assert multiset(TypesOf(events)) == multiset(TypesOf(init)) + multiset{last.reactionType};
    }
  }

  /** An empty event list gives every bucket zero. */
  lemma EmptyCountsAreZero()
    ensures CountsOf([]) == Zero
    ensures forall t :: t in KnownTypes ==> CountsOf([]).Get(t) == 0
  {
  }

  /** The counts do not depend on the order of the events: two event lists
      with the same types, as a multiset, have the same counts. */
  lemma CountsIgnoreOrder(a: seq<ReactionEvent>, b: seq<ReactionEvent>)
    requires multiset(TypesOf(a)) == multiset(TypesOf(b))
    ensures CountsOf(a) == CountsOf(b)
  {
    CountsOfTallies(a);
    CountsOfTallies(b);
    CountsEqualByBuckets(CountsOf(a), CountsOf(b));
  }

  lemma BumpPlus(c: Counts, d: Counts, t: string)
    ensures Bump(c.Plus(d), t) == c.Plus(Bump(d, t))
  {
  }

  /** Counting a concatenation is adding the two counts. */
  lemma {:induction false} CountsOfAppend(a: seq<ReactionEvent>, b: seq<ReactionEvent>)
    ensures CountsOf(a + b) == CountsOf(a).Plus(CountsOf(b))
  {
    if b == [] {
      assert a + b == a;
    } else {
      var init := b[..|b| - 1];
      var last := b[|b| - 1];
      var ab := a + b;
      assert ab != [];
      assert ab[..|ab| - 1] == a + init;
      assert ab[|ab| - 1] == last;
      assert CountsOf(ab) == Bump(CountsOf(a + init), last.reactionType);
      CountsOfAppend(a, init);
      BumpPlus(CountsOf(a), CountsOf(init), last.reactionType);
      assert CountsOf(b) == Bump(CountsOf(init), last.reactionType);
    }
  }

  /** Events of an unknown type contribute nothing: dropping them all leaves
      the counts as they were. */
  lemma {:induction false} UnknownTypesIgnored(events: seq<ReactionEvent>)
    ensures CountsOf(KnownOnly(events)) == CountsOf(events)
  {
    if events != [] {
      var init := events[..|events| - 1];
      var last := events[|events| - 1];
      UnknownTypesIgnored(init);
      if last.reactionType in KnownTypes {
        var k := KnownOnly(init) + [last];
        assert KnownOnly(events) == k;
        assert k[..|k| - 1] == KnownOnly(init);
        assert CountsOf(k) == Bump(CountsOf(KnownOnly(init)), last.reactionType);
      } else {
        assert KnownOnly(events) == KnownOnly(init);
      }
    }
  }

  /** The four buckets together hold one count per event of a known type. */
  lemma {:induction false} TotalCountsKnownEvents(events: seq<ReactionEvent>)
    ensures CountsOf(events).Total() == |KnownOnly(events)| <= |events|
  {
    if events != [] {
      TotalCountsKnownEvents(events[..|events| - 1]);
      BumpBuckets(CountsOf(events[..|events| - 1]), events[|events| - 1].reactionType);
    }
  }

  /** The counting loop of the refresh: a fresh four-bucket counter, then one
      increment per event whose type names a bucket. */
  method CountReactions(events: seq<ReactionEvent>) returns (counts: Counts)
    ensures counts == CountsOf(events)
    ensures forall t :: t in KnownTypes ==> counts.Get(t) == multiset(TypesOf(events))[t]
  {
    counts := Zero;
    for i := 0 to |events|
      invariant counts == CountsOf(events[..i])
    {
      assert events[..i + 1][..i] == events[..i];
      counts := Bump(counts, events[i].reactionType);
    }
    assert events[..|events|] == events;
    CountsOfTallies(events);
  }
}
