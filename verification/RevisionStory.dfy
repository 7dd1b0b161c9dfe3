/** Event ownership and volumes in an accepted plan. */
module RevisionStory {
  import opened Sequences
  import opened Text
  import opened RevisionSpec
  import opened RevisionEvents

  // ---- Ownership --------------------------------------------------------------------------------

  function ListedIds(listings: seq<Listing>): set<string> {
    if listings == [] then {} else ListedIds(Init(listings)) + {Last(listings).id}
  }

  function EventIds(events: seq<Event>): set<string> {
    if events == [] then {} else EventIds(Init(events)) + {Trim(Last(events).id)}
  }

  lemma {:induction false} ListedIs(listings: seq<Listing>)
    ensures forall id :: id in ListedIds(listings) <==> exists i | 0 <= i < |listings| :: listings[i].id == id
    ensures Distinct(listings) ==> |ListedIds(listings)| == |listings|
  {
    if listings != [] {
      ListedIs(Init(listings));
      assert forall i | 0 <= i < |listings| - 1 :: Init(listings)[i] == listings[i];
    }
  }

  lemma {:induction false} EventIdsAre(events: seq<Event>)
    ensures forall id :: id in EventIds(events) <==> exists i | 0 <= i < |events| :: Trim(events[i].id) == id
    ensures EventsNamed(events) ==> |EventIds(events)| == |events|
  {
    hide Trim, EventIds;
    forall id
      ensures id in EventIds(events) <==> exists i | 0 <= i < |events| :: Trim(events[i].id) == id
    {
      HasEventId(events, id);
    }
    if EventsNamed(events) {
      EventIdsCount(events);
    }
  }

  lemma {:induction false} HasEventId(events: seq<Event>, id: string)
    ensures id in EventIds(events) <==> exists i | 0 <= i < |events| :: Trim(events[i].id) == id
  {
    hide Trim;
    if events != [] {
      HasEventId(Init(events), id);
      if i :| 0 <= i < |events| - 1 && Trim(events[i].id) == id {
        assert Init(events)[i] == events[i];
      }
    }
  }

  lemma {:induction false} EventIdsCount(events: seq<Event>)
    requires EventsNamed(events)
    ensures |EventIds(events)| == |events|
  {
    hide Trim;
    if events != [] {
      assert forall i | 0 <= i < |events| - 1 :: Init(events)[i] == events[i];
      EventIdsCount(Init(events));
      HasEventId(Init(events), Trim(Last(events).id));
    }
  }

  /** The event entries of the chapters and the events of the ledgers correspond one to one: no entry is
      unknown or repeated, no event is unlisted, and there are equally many of both. */
  lemma {:induction false} OwnershipIsBijective(base: Plan, plan: Plan)
    requires EventsFit(base, plan)
    ensures Distinct(Listings(plan.chapters)) && EventsNamed(Events(plan))
    ensures ListedIds(Listings(plan.chapters)) == EventIds(Events(plan))
    ensures |Listings(plan.chapters)| == |Events(plan)|
  {
    hide Trim, Listings, LatestEvent, Numbers, EarlierOwner, LedgerKept, OwnersKept, EventsNamed;
    var listings, events := Listings(plan.chapters), Events(plan);
    ListedIs(listings);
    EventIdsAre(events);
    forall id
      ensures id in ListedIds(listings) <==> id in EventIds(events)
    {
      LatestEventSome(events, id);
      NumbersGrow(listings, id);
      if id in ListedIds(listings) {
        var i :| 0 <= i < |listings| && listings[i].id == id;
        assert listings[i] in listings && ListingFits(events, listings[i]);
      }
      if id in EventIds(events) {
        var k :| 0 <= k < |events| && Trim(events[k].id) == id;
        assert events[k] in events && EventOwned(plan, events[k]);
      }
    }
  }

  // ---- Dependencies -----------------------------------------------------------------------------

  /** The first chapter that lists the event, or 0. */
  function OwnerNumber(plan: Plan, id: string): int {
    var numbers := Numbers(Listings(plan.chapters), id);
    if numbers == [] then 0 else numbers[0]
  }

  /** An event of the plan with the ID `from` depends on the event with the ID `to`. */
  predicate Edge(plan: Plan, from: string, to: string) {
    exists e | e in Events(plan) && Trim(e.id) == from :: exists d | d in e.dependsOn :: Trim(d) == to
  }

  predicate Path(plan: Plan, ids: seq<string>) {
    forall i | 0 <= i < |ids| - 1 :: Edge(plan, ids[i], ids[i + 1])
  }

  lemma {:induction false} EdgeGoesBack(base: Plan, plan: Plan, from: string, to: string)
    requires EventsFit(base, plan) && Numbered(plan.chapters) && Edge(plan, from, to)
    ensures 0 < OwnerNumber(plan, to) < OwnerNumber(plan, from) <= |plan.chapters|
  {
    hide Trim, Listings, Numbers, LedgerKept, OwnersKept, EventsNamed, ListingsFit;
    var e :| e in Events(plan) && Trim(e.id) == from && exists d | d in e.dependsOn :: Trim(d) == to;
    var d :| d in e.dependsOn && Trim(d) == to;
    assert EventOwned(plan, e);
    var number := Numbers(Listings(plan.chapters), from)[0];
    assert EarlierOwner(plan, d, number);
    OwnerInRange(plan, to, OwnerNumber(plan, to));
  }

  lemma {:induction false} PathGoesBack(base: Plan, plan: Plan, ids: seq<string>, i: nat, j: nat)
    requires EventsFit(base, plan) && Numbered(plan.chapters) && Path(plan, ids) && i < j < |ids|
    ensures 0 < OwnerNumber(plan, ids[j]) <= OwnerNumber(plan, ids[i]) - (j - i)
    ensures OwnerNumber(plan, ids[i]) <= |plan.chapters|
    decreases j - i
  {
    hide EventsFit, Numbered, Edge, OwnerNumber;
    EdgeGoesBack(base, plan, ids[i], ids[i + 1]);
    if i + 1 < j {
      PathGoesBack(base, plan, ids, i + 1, j);
    }
  }

  /** Event dependencies never form a cycle, and no chain of them is longer than the number of chapters. */
  lemma {:induction false} DependenciesAcyclic(base: Plan, plan: Plan, ids: seq<string>)
    requires EventsFit(base, plan) && Numbered(plan.chapters) && Path(plan, ids) && |ids| >= 2
    ensures forall i, j | 0 <= i < j < |ids| :: ids[i] != ids[j]
    ensures |ids| <= |plan.chapters|
  {
    hide EventsFit, Numbered, Path, OwnerNumber;
    forall i, j | 0 <= i < j < |ids|
      ensures ids[i] != ids[j]
    {
      PathGoesBack(base, plan, ids, i, j);
    }
    PathGoesBack(base, plan, ids, 0, |ids| - 1);
  }

  // ---- Volumes ----------------------------------------------------------------------------------

  predicate Holds(v: Volume, number: int) {
    v.targetFrom <= number <= v.targetTo
  }

  lemma {:induction false} StartsIncrease(base: Plan, plan: Plan, j: nat, k: nat)
    requires VolumesStable(base, plan) && j <= k <= |plan.volumes|
    ensures VolumeStart(plan.volumes, j) <= VolumeStart(plan.volumes, k)
    ensures j < k ==> VolumeStart(plan.volumes, j) < VolumeStart(plan.volumes, k)
  {
    hide Trim, LatestVolume;
    if j < k {
      StartsIncrease(base, plan, j, k - 1);
      assert VolumeFits(base, plan, k - 1);
    }
  }

  /** The volumes of an accepted plan that has any partition the chapters 1..n: every chapter lies in exactly
      one volume and no volume reaches outside. */
  lemma {:induction false} VolumesPartition(base: Plan, plan: Plan, number: int)
    requires VolumesStable(base, plan) && plan.volumes != []
    ensures (exists k | 0 <= k < |plan.volumes| :: Holds(plan.volumes[k], number)) <==> 1 <= number <= |plan.chapters|
    ensures forall j, k | 0 <= j < k < |plan.volumes| :: !(Holds(plan.volumes[j], number) && Holds(plan.volumes[k], number))
  {
    hide Trim, LatestVolume;
    forall j, k | 0 <= j < k < |plan.volumes|
      ensures !(Holds(plan.volumes[j], number) && Holds(plan.volumes[k], number))
    {
      StartsIncrease(base, plan, j + 1, k);
      assert VolumeFits(base, plan, k);
    }
    if k :| 0 <= k < |plan.volumes| && Holds(plan.volumes[k], number) {
      StartsIncrease(base, plan, 0, k);
      assert VolumeFits(base, plan, k);
    }
    if 1 <= number <= |plan.chapters| {
      var k := FindVolume(base, plan, number, |plan.volumes|);
      assert Holds(plan.volumes[k], number);
    }
  }

  lemma {:induction false} FindVolume(base: Plan, plan: Plan, number: int, n: nat) returns (k: nat)
    requires VolumesStable(base, plan) && n <= |plan.volumes| && 1 <= number < VolumeStart(plan.volumes, n)
    ensures k < n && Holds(plan.volumes[k], number)
  {
    hide Trim, LatestVolume;
    assert VolumeFits(base, plan, n - 1);
    if number >= VolumeStart(plan.volumes, n - 1) {
      k := n - 1;
    } else {
      k := FindVolume(base, plan, number, n - 1);
    }
  }

  const UNASSIGNED := "unassigned-volume"

  /** The volume lookup of the detail merge: the first volume whose range holds the chapter. */
  method VolumeOf(volumes: seq<Volume>, number: int) returns (id: string)
    ensures id == VolumeId(volumes, number)
  {
    for k := 0 to |volumes|
      invariant VolumeId(volumes, number) == VolumeId(volumes[k..], number)
    {
      if volumes[k].targetFrom <= number && number <= volumes[k].targetTo {
        return volumes[k].id;
      }
      assert volumes[k..][1..] == volumes[k + 1..];
    }
    id := UNASSIGNED;
  }

  function VolumeId(volumes: seq<Volume>, number: int): string {
    if volumes == [] then UNASSIGNED
    else if Holds(volumes[0], number) then volumes[0].id
    else VolumeId(volumes[1..], number)
  }

  lemma {:induction false} FirstHolder(volumes: seq<Volume>, number: int, k: nat)
    requires k < |volumes| && Holds(volumes[k], number)
    requires forall j | 0 <= j < k :: !Holds(volumes[j], number)
    ensures VolumeId(volumes, number) == volumes[k].id
  {
    if k > 0 {
      FirstHolder(volumes[1..], number, k - 1);
    }
  }

  /** In an accepted plan the lookup is total and finds the one volume that holds the chapter. */
  lemma {:induction false} LookupIsTotal(base: Plan, plan: Plan, number: int) returns (k: nat)
    requires VolumesStable(base, plan) && plan.volumes != [] && 1 <= number <= |plan.chapters|
    ensures k < |plan.volumes| && Holds(plan.volumes[k], number) && VolumeId(plan.volumes, number) == plan.volumes[k].id
    ensures forall j | 0 <= j < |plan.volumes| && j != k :: !Holds(plan.volumes[j], number)
  {
    VolumesPartition(base, plan, number);
    hide VolumesStable, Holds;
    k :| 0 <= k < |plan.volumes| && Holds(plan.volumes[k], number);
    FirstHolder(plan.volumes, number, k);
  }
}
