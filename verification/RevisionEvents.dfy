/** The check of the event ledgers and of event ownership, as the code runs it. */
module RevisionEvents {
  import opened Sequences
  import opened Text
  import opened RevisionSpec

  // ---- Maps keyed by event ID -------------------------------------------------------------------

  ghost predicate IndexesEvents(index: map<string, Event>, events: seq<Event>) {
    forall id :: LatestEvent(events, id) == if id in index then Some(index[id]) else None
  }

  method EventsById(events: seq<Event>) returns (index: map<string, Event>)
    ensures IndexesEvents(index, events)
  {
    hide Trim;
    index := map[];
    for i := 0 to |events|
      invariant IndexesEvents(index, events[..i])
    {
      Prefix(events, i);
      index := index[Trim(events[i].id) := events[i]];
    }
    Whole(events);
  }

  lemma {:induction false} LatestEventSome(events: seq<Event>, id: string)
    ensures LatestEvent(events, id).Some? <==> exists i | 0 <= i < |events| :: Trim(events[i].id) == id
    ensures LatestEvent(events, id).Some? ==>
              LatestEvent(events, id).value in events && Trim(LatestEvent(events, id).value.id) == id
  {
    hide Trim;
    if events != [] {
      LatestEventSome(Init(events), id);
      if i :| 0 <= i < |events| - 1 && Trim(events[i].id) == id {
        assert Init(events)[i] == events[i];
      }
    }
  }

  // ---- The ledger -------------------------------------------------------------------------------

  method CheckLedger(base: Plan, plan: Plan, index: map<string, Event>) returns (ok: bool)
    requires IndexesEvents(index, base.ledger)
    ensures ok == LedgerKept(base, plan)
  {
    hide Trim, LatestEvent;
    var current: map<string, Event> := map[];
    for i := 0 to |plan.ledger|
      invariant forall j | 0 <= j < i ::
                  LatestEvent(base.ledger, Trim(plan.ledger[j].id)).None? ==> plan.ledger[j].origin == AddedOrigin
    {
      if Trim(plan.ledger[i].id) !in index && plan.ledger[i].origin != AddedOrigin {
        return false;
      }
    }
    current := EventsById(plan.ledger);
    ok := forall id | id in index :: id in current && index[id] == current[id];
    KeptById(base.ledger, plan.ledger, index, current);
  }

  lemma {:induction false} KeptById(base: seq<Event>, ledger: seq<Event>, index: map<string, Event>, current: map<string, Event>)
    requires IndexesEvents(index, base) && IndexesEvents(current, ledger)
    ensures (forall id | id in index :: id in current && index[id] == current[id]) <==>
            forall i | 0 <= i < |base| :: LatestEvent(ledger, Trim(base[i].id)) == LatestEvent(base, Trim(base[i].id))
  {
    hide Trim, LatestEvent;
    forall id
      ensures id in index <==> exists i | 0 <= i < |base| :: Trim(base[i].id) == id
    {
      LatestEventSome(base, id);
    }
  }

  method CollectEvents(events: seq<Event>) returns (ok: bool, known: map<string, Event>)
    ensures ok == EventsNamed(events)
    ensures ok ==> IndexesEvents(known, events)
  {
    hide Trim;
    known := map[];
    for i := 0 to |events|
      invariant forall j | 0 <= j < i :: Trim(events[j].id) != ""
      invariant forall j, k | 0 <= j < k < i :: Trim(events[j].id) != Trim(events[k].id)
      invariant IndexesEvents(known, events[..i])
      invariant forall id :: id in known <==> exists j | 0 <= j < i :: Trim(events[j].id) == id
    {
      Prefix(events, i);
      var id := Trim(events[i].id);
      if id == "" || id in known {
        return false, known;
      }
      known := known[id := events[i]];
    }
    Whole(events);
    ok := true;
  }

  // ---- Ownership --------------------------------------------------------------------------------

  /** The owners map of the code: for every listed event the numbers of the chapters listing it. */
  ghost predicate Tallies(owners: map<string, seq<int>>, listings: seq<Listing>) {
    forall id :: Numbers(listings, id) == if id in owners then owners[id] else []
  }

  lemma {:induction false} NumbersStep(listings: seq<Listing>, l: Listing)
    ensures forall id :: Numbers(listings + [l], id) ==
                         Numbers(listings, id) + (if l.id == id then [l.number] else [])
  {
    assert Init(listings + [l]) == listings;
  }

  ghost predicate AllFit(events: seq<Event>, listings: seq<Listing>) {
    forall l | l in listings :: ListingFits(events, l)
  }

  /** `seen` holds the events the current chapter has listed so far, none of them twice. */
  ghost predicate Fresh(seen: set<string>, own: seq<Listing>) {
    && (forall id :: id in seen <==> exists i | 0 <= i < |own| :: own[i].id == id)
    && (forall i, j | 0 <= i < j < |own| :: own[i].id != own[j].id)
  }

  lemma {:induction false} FreshStep(seen: set<string>, own: seq<Listing>, l: Listing)
    requires Fresh(seen, own) && l.id !in seen
    ensures Fresh(seen + {l.id}, own + [l])
  {
    var more := own + [l];
    assert forall i | 0 <= i < |own| :: more[i] == own[i];
    assert more[|own|] == l;
  }

  /** The listing of a repeated event makes the listings repeat. */
  predicate Distinct(listings: seq<Listing>) {
    forall i, j | 0 <= i < j < |listings| :: listings[i].id != listings[j].id
  }

  lemma {:induction false} RepeatBreaks(before: seq<Listing>, own: seq<Listing>, after: seq<Listing>, seen: set<string>, l: Listing)
    requires Fresh(seen, own) && l.id in seen
    ensures !Distinct(before + (own + [l]) + after)
  {
    var i :| 0 <= i < |own| && own[i].id == l.id;
    var all := before + (own + [l]) + after;
    assert all[|before| + i] == own[i] && all[|before| + |own|] == l;
  }

  lemma {:induction false} MisfitBreaks(events: seq<Event>, before: seq<Listing>, own: seq<Listing>, after: seq<Listing>, l: Listing)
    requires !ListingFits(events, l)
    ensures !AllFit(events, before + (own + [l]) + after)
  {
    hide ListingFits;
    var all := before + (own + [l]) + after;
    assert all[|before| + |own|] == l;
    assert l in all;
  }

  /** One of the two inner loops: the listings of `ids` join those of the chapter. */
  method ClaimAll(
      ghost events: seq<Event>, known: map<string, Event>, c: Chapter, ids: seq<string>, added: bool,
      ghost before: seq<Listing>, ghost own: seq<Listing>, startOwners: map<string, seq<int>>, startSeen: set<string>)
    returns (ok: bool, owners: map<string, seq<int>>, seen: set<string>)
    requires IndexesEvents(known, events) && Tallies(startOwners, before + own)
    requires Fresh(startSeen, own) && AllFit(events, own)
    ensures ok ==>
              && Tallies(owners, before + (own + ListingsOf(ids, c, added)))
              && Fresh(seen, own + ListingsOf(ids, c, added)) && AllFit(events, own + ListingsOf(ids, c, added))
    ensures !ok ==> forall rest :: Broken(events, before + (own + ListingsOf(ids, c, added)) + rest)
  {
    hide Trim, LatestEvent, Numbers, Fresh, ListingsOf, AllFit, Broken, Tallies, ListingFits;
    owners, seen := startOwners, startSeen;
    NoneListed(ids, c, added, before, own);
    for i := 0 to |ids|
      invariant Tallies(owners, before + (own + ListingsOf(ids[..i], c, added)))
      invariant Fresh(seen, own + ListingsOf(ids[..i], c, added))
      invariant AllFit(events, own + ListingsOf(ids[..i], c, added))
    {
      var id := Trim(ids[i]);
      ListingStep(ids, i, c, added);
      if id == "" {
        continue;
      }
      ghost var now := own + ListingsOf(ids[..i], c, added);
      ghost var l := Listing(id, c.number, Trim(c.id), added);
      FitsIff(events, known, l);
      if id !in known || (added && known[id].origin == SourceOrigin) {
        BreaksLater(events, before, own, ids, i, c, added, l);
        return false, owners, seen;
      }
      InSeen(seen, now, id);
      if id in seen {
        BreaksTwice(events, before, own, ids, i, c, added, seen, l);
        return false, owners, seen;
      }
      ClaimStep(events, before, now, owners, seen, l);
      assert own + ListingsOf(ids[..i + 1], c, added) == now + [l];
      assert before + (now + [l]) == (before + now) + [l];
      seen := seen + {id};
      owners := owners[id := (if id in owners then owners[id] else []) + [c.number]];
    }
    Whole(ids);
    ok := true;
  }

  lemma {:induction false} NoneListed(ids: seq<string>, c: Chapter, added: bool, before: seq<Listing>, own: seq<Listing>)
    ensures ListingsOf(ids[..0], c, added) == []
    ensures own + ListingsOf(ids[..0], c, added) == own
  {
  }

  lemma {:induction false} InSeen(seen: set<string>, own: seq<Listing>, id: string)
    requires Fresh(seen, own)
    ensures id in seen <==> exists i | 0 <= i < |own| :: own[i].id == id
  {
  }

  lemma {:induction false} FitsIff(events: seq<Event>, known: map<string, Event>, l: Listing)
    requires IndexesEvents(known, events)
    ensures ListingFits(events, l) <==> l.id in known && (l.added ==> known[l.id].origin != SourceOrigin)
  {
  }

  lemma {:induction false} ListingStep(ids: seq<string>, i: nat, c: Chapter, added: bool)
    requires i < |ids|
    ensures Trim(ids[i]) == "" ==> ListingsOf(ids[..i + 1], c, added) == ListingsOf(ids[..i], c, added)
    ensures Trim(ids[i]) != "" ==>
              ListingsOf(ids[..i + 1], c, added) ==
              ListingsOf(ids[..i], c, added) + [Listing(Trim(ids[i]), c.number, Trim(c.id), added)]
  {
    Prefix(ids, i);
  }

  lemma {:induction false} ListingsSplit(ids: seq<string>, i: nat, c: Chapter, added: bool) returns (rest: seq<Listing>)
    requires i <= |ids|
    ensures ListingsOf(ids, c, added) == ListingsOf(ids[..i], c, added) + rest
    decreases |ids| - i
  {
    if i == |ids| {
      Whole(ids);
      rest := [];
    } else {
      hide *;
      var tail := ListingsSplit(ids, i + 1, c, added);
      ListingStep(ids, i, c, added);
      if Trim(ids[i]) == "" {
        rest := tail;
      } else {
        rest := [Listing(Trim(ids[i]), c.number, Trim(c.id), added)] + tail;
        Associative(ListingsOf(ids[..i], c, added), [Listing(Trim(ids[i]), c.number, Trim(c.id), added)], tail);
      }
    }
  }

  /** Some listing does not fit the ledgers, or an event is listed twice. */
  ghost predicate Broken(events: seq<Event>, listings: seq<Listing>) {
    !AllFit(events, listings) || !Distinct(listings)
  }

  lemma {:induction false} BreaksLater(
      events: seq<Event>, before: seq<Listing>, own: seq<Listing>, ids: seq<string>, i: nat, c: Chapter, added: bool, l: Listing)
    requires i < |ids| && Trim(ids[i]) != "" && l == Listing(Trim(ids[i]), c.number, Trim(c.id), added)
    requires !ListingFits(events, l)
    ensures forall rest :: Broken(events, before + (own + ListingsOf(ids, c, added)) + rest)
  {
    hide ListingFits, Distinct, ListingsOf, Trim;
    var tail := ListingsSplit(ids, i + 1, c, added);
    ListingStep(ids, i, c, added);
    var now := own + ListingsOf(ids[..i], c, added);
    forall rest
      ensures Broken(events, before + (own + ListingsOf(ids, c, added)) + rest)
    {
      assert before + (own + ListingsOf(ids, c, added)) + rest == before + (now + [l]) + (tail + rest);
      MisfitBreaks(events, before, now, tail + rest, l);
    }
  }

  lemma {:induction false} BreaksTwice(
      events: seq<Event>, before: seq<Listing>, own: seq<Listing>, ids: seq<string>, i: nat, c: Chapter, added: bool,
      seen: set<string>, l: Listing)
    requires i < |ids| && Trim(ids[i]) != "" && l == Listing(Trim(ids[i]), c.number, Trim(c.id), added)
    requires Fresh(seen, own + ListingsOf(ids[..i], c, added)) && l.id in seen
    ensures forall rest :: Broken(events, before + (own + ListingsOf(ids, c, added)) + rest)
  {
    hide ListingFits, Distinct, ListingsOf, Trim, AllFit, Fresh;
    var tail := ListingsSplit(ids, i + 1, c, added);
    ListingStep(ids, i, c, added);
    var now := own + ListingsOf(ids[..i], c, added);
    forall rest
      ensures Broken(events, before + (own + ListingsOf(ids, c, added)) + rest)
    {
      assert before + (own + ListingsOf(ids, c, added)) + rest == before + (now + [l]) + (tail + rest);
      RepeatBreaks(before, now, tail + rest, seen, l);
    }
  }

  lemma {:induction false} ClaimStep(
      events: seq<Event>, before: seq<Listing>, own: seq<Listing>, owners: map<string, seq<int>>, seen: set<string>, l: Listing)
    requires Tallies(owners, before + own) && Fresh(seen, own) && AllFit(events, own)
    requires ListingFits(events, l) && l.id !in seen
    ensures Tallies(owners[l.id := (if l.id in owners then owners[l.id] else []) + [l.number]], (before + own) + [l])
    ensures Fresh(seen + {l.id}, own + [l]) && AllFit(events, own + [l])
  {
    hide ListingFits, Numbers;
    NumbersStep(before + own, l);
    FreshStep(seen, own, l);
  }

  lemma {:induction false} ListingsStep(chapters: seq<Chapter>, k: nat)
    requires k < |chapters|
    ensures Listings(chapters[..k + 1]) ==
            Listings(chapters[..k]) + ListingsOf(chapters[k].eventIds, chapters[k], false) +
            ListingsOf(chapters[k].addedEventIds, chapters[k], true)
  {
    Prefix(chapters, k);
  }

  lemma {:induction false} ListingsRest(chapters: seq<Chapter>, k: nat) returns (rest: seq<Listing>)
    requires k <= |chapters|
    ensures Listings(chapters) == Listings(chapters[..k]) + rest
    decreases |chapters| - k
  {
    if k == |chapters| {
      Whole(chapters);
      rest := [];
    } else {
      hide *;
      var tail := ListingsRest(chapters, k + 1);
      ListingsStep(chapters, k);
      var own, added := ListingsOf(chapters[k].eventIds, chapters[k], false), ListingsOf(chapters[k].addedEventIds, chapters[k], true);
      Associative(Listings(chapters[..k]) + own, added, tail);
      Associative(Listings(chapters[..k]), own, added + tail);
      rest := own + (added + tail);
    }
  }

  method ClaimChapters(plan: Plan, known: map<string, Event>) returns (ok: bool, owners: map<string, seq<int>>)
    requires IndexesEvents(known, Events(plan))
    ensures ok ==> Tallies(owners, Listings(plan.chapters)) && AllFit(Events(plan), Listings(plan.chapters))
    ensures !ok ==> !ListingsFit(plan)
  {
    hide *;
    ghost var events := Events(plan);
    owners := map[];
    NothingClaimed(events, plan.chapters);
    for k := 0 to |plan.chapters|
      invariant Tallies(owners, Listings(plan.chapters[..k])) && AllFit(events, Listings(plan.chapters[..k]))
    {
      var c := plan.chapters[k];
      ghost var before := Listings(plan.chapters[..k]);
      ghost var own := ListingsOf(c.eventIds, c, false);
      ghost var added := ListingsOf(c.addedEventIds, c, true);
      ghost var rest := ListingsRest(plan.chapters, k + 1);
      ListingsStep(plan.chapters, k);
      Reassociate(before, own, added, rest);
      var seen: set<string> := {};
      NothingClaimed(events, plan.chapters);
      ok, owners, seen := ClaimAll(events, known, c, c.eventIds, false, before, [], owners, seen);
      if !ok {
        BrokenFits(plan, before + ([] + own) + (added + rest));
        return;
      }
      ok, owners, seen := ClaimAll(events, known, c, c.addedEventIds, true, before, own, owners, seen);
      if !ok {
        BrokenFits(plan, before + (own + added) + rest);
        return;
      }
      AllFitJoin(events, before, own + added);
    }
    Whole(plan.chapters);
    ok := true;
  }

  lemma {:induction false} NothingClaimed(events: seq<Event>, chapters: seq<Chapter>)
    ensures Listings(chapters[..0]) == [] && Tallies(map[], []) && AllFit(events, []) && Fresh({}, [])
  {
  }

  lemma {:induction false} Reassociate(before: seq<Listing>, own: seq<Listing>, added: seq<Listing>, rest: seq<Listing>)
    ensures before + own + added + rest == before + ([] + own) + (added + rest) == before + (own + added) + rest
    ensures before + own + added == before + (own + added)
    ensures [] + own == own && before + [] == before
  {
  }

  lemma {:induction false} AllFitJoin(events: seq<Event>, a: seq<Listing>, b: seq<Listing>)
    requires AllFit(events, a) && AllFit(events, b)
    ensures AllFit(events, a + b)
  {
    hide ListingFits;
  }

  lemma {:induction false} BrokenFits(plan: Plan, listings: seq<Listing>)
    requires listings == Listings(plan.chapters) && Broken(Events(plan), listings)
    ensures !ListingsFit(plan)
  {
    hide Listings, ListingFits, Events;
  }

  // ---- Owners before and after ------------------------------------------------------------------

  ghost predicate IndexesOwners(index: map<string, (string, bool)>, listings: seq<Listing>) {
    forall id | id != "" :: Owner(listings, id) == if id in index then Some(index[id]) else None
  }

  lemma {:induction false} OwnerStep(listings: seq<Listing>, l: Listing)
    ensures forall id :: Owner(listings + [l], id) ==
                         if l.id == id then Some((l.chapterId, l.added)) else Owner(listings, id)
  {
    assert Init(listings + [l]) == listings;
  }

  /** The code records blank entries as well; they are never asked for. */
  method RecordOwners(c: Chapter, ids: seq<string>, added: bool, before: map<string, (string, bool)>, ghost listings: seq<Listing>)
    returns (owners: map<string, (string, bool)>)
    requires IndexesOwners(before, listings)
    ensures IndexesOwners(owners, listings + ListingsOf(ids, c, added))
  {
    hide Trim, ListingsOf, Owner;
    owners := before;
    NoneListed(ids, c, added, [], listings);
    for i := 0 to |ids|
      invariant IndexesOwners(owners, listings + ListingsOf(ids[..i], c, added))
    {
      ListingStep(ids, i, c, added);
      ghost var now := listings + ListingsOf(ids[..i], c, added);
      var id := Trim(ids[i]);
      if id != "" {
        OwnerStep(now, Listing(id, c.number, Trim(c.id), added));
        assert listings + ListingsOf(ids[..i + 1], c, added) == now + [Listing(id, c.number, Trim(c.id), added)];
      }
      owners := owners[id := (Trim(c.id), added)];
    }
    Whole(ids);
  }

  method StableOwners(chapters: seq<Chapter>) returns (owners: map<string, (string, bool)>)
    ensures IndexesOwners(owners, Listings(chapters))
  {
    hide ListingsOf, Owner, Listings;
    owners := map[];
    NobodyOwns(chapters);
    for k := 0 to |chapters|
      invariant IndexesOwners(owners, Listings(chapters[..k]))
    {
      ListingsStep(chapters, k);
      owners := RecordOwners(chapters[k], chapters[k].eventIds, false, owners, Listings(chapters[..k]));
      owners := RecordOwners(chapters[k], chapters[k].addedEventIds, true, owners,
                             Listings(chapters[..k]) + ListingsOf(chapters[k].eventIds, chapters[k], false));
    }
    Whole(chapters);
  }

  lemma {:induction false} NobodyOwns(chapters: seq<Chapter>)
    ensures IndexesOwners(map[], Listings(chapters[..0]))
  {
  }

  method CompareOwners(base: Plan, plan: Plan, ledger: map<string, Event>) returns (ok: bool)
    requires IndexesEvents(ledger, base.ledger) && LedgerKept(base, plan) && EventsNamed(Events(plan))
    ensures ok == OwnersKept(base, plan)
  {
    hide Owner, Listings, LatestEvent, Trim;
    var before := StableOwners(base.chapters);
    var after := StableOwners(plan.chapters);
    ok := forall id | id in ledger :: id in before && id in after && before[id] == after[id];
    forall i | 0 <= i < |base.ledger|
      ensures Trim(base.ledger[i].id) != "" && Trim(base.ledger[i].id) in ledger
    {
      KeptNamed(base, plan, i);
    }
    forall id | id in ledger
      ensures exists i | 0 <= i < |base.ledger| :: Trim(base.ledger[i].id) == id
    {
      LatestEventSome(base.ledger, id);
    }
  }

  lemma {:induction false} KeptNamed(base: Plan, plan: Plan, i: nat)
    requires LedgerKept(base, plan) && EventsNamed(Events(plan)) && i < |base.ledger|
    ensures Trim(base.ledger[i].id) != "" && LatestEvent(base.ledger, Trim(base.ledger[i].id)).Some?
  {
    hide Trim, LatestEvent;
    var id := Trim(base.ledger[i].id);
    LatestEventSome(base.ledger, id);
    LatestEventSome(plan.ledger, id);
    var j :| 0 <= j < |plan.ledger| && Trim(plan.ledger[j].id) == id;
    assert Events(plan)[|plan.sourceEvents| + j] == plan.ledger[j];
  }

  // ---- Owned events -----------------------------------------------------------------------------

  predicate Numbered(chapters: seq<Chapter>) {
    forall k | 0 <= k < |chapters| :: chapters[k].number == k + 1
  }

  lemma {:induction false} ListingNumbers(ids: seq<string>, c: Chapter, added: bool)
    ensures forall l | l in ListingsOf(ids, c, added) :: l.number == c.number
  {
    hide Trim;
    if ids != [] {
      ListingNumbers(Init(ids), c, added);
    }
  }

  lemma {:induction false} ListingsInRange(chapters: seq<Chapter>)
    requires Numbered(chapters)
    ensures forall l | l in Listings(chapters) :: 0 < l.number <= |chapters|
  {
    if chapters != [] {
      assert forall k | 0 <= k < |chapters| - 1 :: Init(chapters)[k] == chapters[k];
      ListingsInRange(Init(chapters));
      ListingNumbers(Last(chapters).eventIds, Last(chapters), false);
      ListingNumbers(Last(chapters).addedEventIds, Last(chapters), true);
    }
  }

  lemma {:induction false} NumbersFrom(listings: seq<Listing>, id: string, number: int)
    requires number in Numbers(listings, id)
    ensures exists l :: l in listings && l.id == id && l.number == number
  {
    if Last(listings).id == id && Last(listings).number == number {
      assert Last(listings) in listings;
    } else {
      NumbersFrom(Init(listings), id, number);
      var l :| l in Init(listings) && l.id == id && l.number == number;
      assert l in listings;
    }
  }

  method ChapterByNumber(chapters: seq<Chapter>, number: int) returns (found: Option<Chapter>)
    requires Numbered(chapters)
    ensures found == if 0 < number <= |chapters| then Some(chapters[number - 1]) else None
  {
    for k := 0 to |chapters|
      invariant !(0 < number <= k)
    {
      if chapters[k].number == number {
        return Some(chapters[k]);
      }
    }
    found := None;
  }

  method AreEarlier(plan: Plan, owners: map<string, seq<int>>, ids: seq<string>, number: int) returns (ok: bool)
    requires Tallies(owners, Listings(plan.chapters))
    ensures ok == forall d | d in ids :: EarlierOwner(plan, d, number)
  {
    hide Trim, Numbers, Listings;
    for i := 0 to |ids|
      invariant forall j | 0 <= j < i :: EarlierOwner(plan, ids[j], number)
    {
      var id := Trim(ids[i]);
      assert ids[i] in ids;
      if id !in owners || |owners[id]| != 1 || owners[id][0] >= number {
        assert !EarlierOwner(plan, ids[i], number);
        return false;
      }
    }
    ok := true;
  }

  method IsOwned(plan: Plan, owners: map<string, seq<int>>, e: Event) returns (ok: bool)
    requires Tallies(owners, Listings(plan.chapters)) && Numbered(plan.chapters)
    ensures ok == EventOwned(plan, e)
  {
    hide Trim, Numbers, Listings, EarlierOwner;
    var id := Trim(e.id);
    if id !in owners || |owners[id]| == 0 {
      return false;
    }
    if |owners[id]| > 1 {
      return false;
    }
    var number := owners[id][0];
    OwnerInRange(plan, id, number);
    var owner := ChapterByNumber(plan.chapters, number);
    if e.origin == SourceOrigin {
      if owner.value.isAdded || e.sourceChapter <= 0 || !LineageCovers(owner.value, e.sourceChapter) {
        return false;
      }
    }
    ok := AreEarlier(plan, owners, e.dependsOn, number);
  }

  lemma {:induction false} OwnerInRange(plan: Plan, id: string, number: int)
    requires Numbered(plan.chapters) && number in Numbers(Listings(plan.chapters), id)
    ensures 0 < number <= |plan.chapters|
  {
    NumbersFrom(Listings(plan.chapters), id, number);
    ListingsInRange(plan.chapters);
  }

  /** The code walks the map of known events, in any order. */
  method CheckOwned(plan: Plan, known: map<string, Event>, owners: map<string, seq<int>>) returns (ok: bool)
    requires IndexesEvents(known, Events(plan)) && EventsNamed(Events(plan))
    requires Tallies(owners, Listings(plan.chapters)) && Numbered(plan.chapters)
    ensures ok == forall e | e in Events(plan) :: EventOwned(plan, e)
  {
    hide EventOwned, Tallies, LatestEvent, EventsNamed, Trim;
    var rest := known.Keys;
    while rest != {}
      invariant rest <= known.Keys
      invariant forall id | id in known && id !in rest :: EventOwned(plan, known[id])
      decreases |rest|
    {
      var id :| id in rest;
      rest := rest - {id};
      var owned := IsOwned(plan, owners, known[id]);
      if !owned {
        KnownIs(Events(plan), known, id);
        return false;
      }
    }
    forall e | e in Events(plan)
      ensures EventOwned(plan, e)
    {
      KnownHas(Events(plan), known, e);
    }
    ok := true;
  }

  lemma {:induction false} KnownIs(events: seq<Event>, known: map<string, Event>, id: string)
    requires IndexesEvents(known, events) && id in known
    ensures known[id] in events
  {
    LatestEventSome(events, id);
  }

  lemma {:induction false} KnownHas(events: seq<Event>, known: map<string, Event>, e: Event)
    requires IndexesEvents(known, events) && EventsNamed(events) && e in events
    ensures Trim(e.id) in known && known[Trim(e.id)] == e
  {
    hide Trim, LatestEvent;
    LatestEventSome(events, Trim(e.id));
    var i :| 0 <= i < |events| && events[i] == e;
    assert exists j | 0 <= j < |events| :: Trim(events[j].id) == Trim(e.id);
    var found := known[Trim(e.id)];
    var j :| 0 <= j < |events| && events[j] == found;
  }

  lemma {:induction false} NumbersGrow(listings: seq<Listing>, id: string)
    ensures |Numbers(listings, id)| >= 1 <==> exists i | 0 <= i < |listings| :: listings[i].id == id
    ensures |Numbers(listings, id)| <= 1 ==> forall i, j | 0 <= i < j < |listings| :: !(listings[i].id == id == listings[j].id)
  {
    if listings != [] {
      NumbersGrow(Init(listings), id);
      if i :| 0 <= i < |listings| - 1 && listings[i].id == id {
        assert Init(listings)[i] == listings[i];
      }
      assert forall i | 0 <= i < |listings| - 1 :: Init(listings)[i] == listings[i];
    }
  }

  /** When every listing fits and every known event has one owner, no event is listed twice. */
  lemma {:induction false} OwnedOnce(plan: Plan)
    requires AllFit(Events(plan), Listings(plan.chapters))
    requires forall e | e in Events(plan) :: EventOwned(plan, e)
    ensures ListingsFit(plan)
  {
    hide Listings, Numbers, Trim, LatestEvent, EarlierOwner;
    var listings := Listings(plan.chapters);
    forall i, j | 0 <= i < j < |listings|
      ensures listings[i].id != listings[j].id
    {
      var id := listings[i].id;
      assert listings[i] in listings && ListingFits(Events(plan), listings[i]);
      LatestEventSome(Events(plan), id);
      assert EventOwned(plan, LatestEvent(Events(plan), id).value);
      NumbersGrow(listings, id);
    }
  }

  method CheckDependencies(plan: Plan, owners: map<string, seq<int>>) returns (ok: bool)
    requires Tallies(owners, Listings(plan.chapters))
    ensures ok == forall c | c in plan.chapters :: forall d | d in c.dependsOn :: EarlierOwner(plan, d, c.number)
  {
    hide EarlierOwner, Tallies;
    for k := 0 to |plan.chapters|
      invariant forall j | 0 <= j < k :: forall d | d in plan.chapters[j].dependsOn :: EarlierOwner(plan, d, plan.chapters[j].number)
    {
      var c := plan.chapters[k];
      assert c in plan.chapters;
      var fine := AreEarlier(plan, owners, c.dependsOn, c.number);
      if !fine {
        return false;
      }
    }
    ok := true;
  }

  method CheckEvents(base: Plan, plan: Plan) returns (ok: bool)
    requires Numbered(plan.chapters)
    ensures ok == EventsFit(base, plan)
  {
    hide LedgerKept, EventsNamed, ListingsFit, OwnersKept, EventOwned, EarlierOwner, IndexesEvents, Tallies, AllFit, Numbered, Listings;
    var ledger := EventsById(base.ledger);
    ok := CheckLedger(base, plan, ledger);
    if !ok {
      return;
    }
    var known;
    ok, known := CollectEvents(plan.sourceEvents + plan.ledger);
    if !ok {
      return;
    }
    var owners;
    ok, owners := ClaimChapters(plan, known);
    if !ok {
      return;
    }
    ok := CompareOwners(base, plan, ledger);
    if !ok {
      return;
    }
    ok := CheckOwned(plan, known, owners);
    if !ok {
      return;
    }
    OwnedOnce(plan);
    ok := CheckDependencies(plan, owners);
  }
}
