/** Who is a member: a grow-only set of events decides, the highest generation wins for each DID and
    `removed` wins a tie. The loops below scan a list of events in any order; the reference definitions
    speak about the set alone. */
module Membership {
  import opened Common
  import opened MembershipKey
  import Text

  // ---------------------------------------------------------------- reference definitions

  /** Some activation of `did` is above every removal of it. */
  predicate ActiveIn(events: set<Event>, did: string) {
    exists e :: e in events && e.did == did && e.status.Active? && AboveRemovals(events, did, e.generation)
  }

  predicate AboveRemovals(events: set<Event>, did: string, generation: int) {
    forall r :: r in events && r.did == did && r.status.Removed? ==> r.generation < generation
  }

  predicate Mentioned(events: set<Event>, did: string) {
    exists e :: e in events && e.did == did
  }

  predicate RemovedIn(events: set<Event>, did: string) {
    Mentioned(events, did) && !ActiveIn(events, did)
  }

  function ActiveDids(events: set<Event>): set<string> {
    set e | e in events && ActiveIn(events, e.did) :: e.did
  }

  // ---------------------------------------------------------------- the loops

  predicate Wins(candidate: Event, incumbent: Event) {
    if candidate.generation != incumbent.generation then candidate.generation > incumbent.generation
    else candidate.status.Removed? && incumbent.status.Active?
  }

  ghost predicate Unbeaten(w: Event, events: set<Event>) {
    w in events && forall e :: e in events && e.did == w.did ==> !Wins(e, w)
  }

  function SetOf(events: seq<Event>): set<Event> {
    set e | e in events
  }

  /** The winner is the only unbeaten event of its DID, so it says whether the DID is active. */
  method ResolveMembershipWinner(events: seq<Event>, did: string) returns (winner: Option<Event>)
    ensures winner.None? <==> !Mentioned(SetOf(events), did)
    ensures winner.Some? ==> winner.value.did == did && Unbeaten(winner.value, SetOf(events))
    ensures winner.Some? && winner.value.status.Active? <==> ActiveIn(SetOf(events), did)
    ensures winner.Some? && winner.value.status.Removed? <==> RemovedIn(SetOf(events), did)
  {
    winner := None;
    for i := 0 to |events|
      invariant winner.None? <==> forall k :: 0 <= k < i ==> events[k].did != did
      invariant winner.Some? ==> winner.value.did == did && winner.value in events[..i]
      invariant winner.Some? ==> forall k :: 0 <= k < i && events[k].did == did ==> !Wins(events[k], winner.value)
    {
      if events[i].did == did && (winner.None? || Wins(events[i], winner.value)) {
        winner := Some(events[i]);
      }
    }
    if winner.Some? {
    } else {
      assert forall e :: e in SetOf(events) ==> e.did != did;
    }
  }

  ghost predicate WinnersSoFar(winners: map<string, Event>, events: seq<Event>) {
    && (forall e :: e in events ==> e.did in winners)
    && (forall d :: d in winners ==> winners[d].did == d && Unbeaten(winners[d], SetOf(events)))
  }

  lemma NextWinner(winners: map<string, Event>, events: seq<Event>, e: Event)
    requires WinnersSoFar(winners, events)
    ensures WinnersSoFar(
      if e.did !in winners || Wins(e, winners[e.did]) then winners[e.did := e] else winners, events + [e])
  {
  }

  /** The members are the active DIDs, in sorted order. */
  method ResolveActiveMembers(events: seq<Event>) returns (members: seq<string>)
    ensures members == Text.SortedOf(ActiveDids(SetOf(events)))
  {
    var winners: map<string, Event> := map[];
    for i := 0 to |events|
      invariant WinnersSoFar(winners, events[..i])
    {
      NextWinner(winners, events[..i], events[i]);
      assert events[..i + 1] == events[..i] + [events[i]];
      if events[i].did !in winners || Wins(events[i], winners[events[i].did]) {
        winners := winners[events[i].did := events[i]];
      }
    }
    assert events[..|events|] == events;
    var active := set d | d in winners && winners[d].status.Active?;
    forall d ensures d in active <==> d in ActiveDids(SetOf(events)) {
    }
    assert active == ActiveDids(SetOf(events));
    members := Text.Sort(active);
  }

  /** Only the set of events matters, not the order or the repetition in which a merge lists them. */
  lemma MembersIgnoreMergeOrder(a: set<Event>, b: set<Event>, c: set<Event>)
    ensures ActiveDids(a + b + c) == ActiveDids(c + (b + a)) == ActiveDids((a + b) + (b + c))
  {
  }

  // ---------------------------------------------------------------- what one more event changes

  /** An activation admits exactly where it is above every removal, or where the DID was active anyway. */
  lemma ActivationAdmits(events: set<Event>, did: string, g: nat)
    ensures ActiveIn(events + {Event(did, Active, g)}, did)
      <==> ActiveIn(events, did) || AboveRemovals(events, did, g)
  {
  }

  /** A removal excludes exactly where no activation that held before is above it; so one at the next
      generation beats everything written up to and including that generation. */
  lemma RemovalExcludes(events: set<Event>, did: string, g: nat)
    ensures ActiveIn(events + {Event(did, Removed, g)}, did)
      <==> ActiveIn(events, did) && exists e :: e in events && e.did == did && e.status.Active? && e.generation > g
    ensures (forall e :: e in events && e.did == did ==> e.generation <= g)
      ==> RemovedIn(events + {Event(did, Removed, g)}, did)
  {
  }

  /** Events about one DID never touch another. */
  lemma OthersAreUntouched(events: set<Event>, e: Event, did: string)
    requires e.did != did
    ensures ActiveIn(events + {e}, did) <==> ActiveIn(events, did)
    ensures RemovedIn(events + {e}, did) <==> RemovedIn(events, did)
  {
  }

  /** The re-invite guard: rotate until the current generation is above every removal of the DID. Others
      may rotate in the same await, so one rotation moves the generation by one plus `others[k]`. It ends
      after at most as many rotations as the highest removal is away, and stops at the first generation
      where the activation written next takes effect. */
  method RaiseAboveRemovals(events: set<Event>, did: string, current: nat, others: seq<nat>)
    returns (reached: nat, rotations: nat)
    ensures reached >= current + rotations
    ensures rotations == 0 ==> reached == current
    ensures AboveRemovals(events, did, reached)
    ensures rotations > 0 ==> !AboveRemovals(events, did, current + rotations - 1)
    ensures (forall k :: 0 <= k < |others| ==> others[k] == 0) ==> reached == current + rotations
  {
    var removals := set e | e in events && e.did == did && e.status.Removed? :: e.generation;
    forall g: nat ensures AboveRemovals(events, did, g) <==> forall r :: r in removals ==> r < g {
      if forall r :: r in removals ==> r < g {
        forall e | e in events && e.did == did && e.status.Removed? ensures e.generation < g {
          assert e.generation in removals;
        }
      }
    }
    reached, rotations := current, 0;
    ghost var top := Highest(removals);
    while exists r :: r in removals && r >= reached
      invariant reached >= current + rotations
      invariant rotations == 0 ==> reached == current
      invariant rotations > 0 ==> exists r :: r in removals && r >= current + rotations - 1
      invariant (forall k :: 0 <= k < |others| ==> others[k] == 0) ==> reached == current + rotations
      decreases top + 1 - reached
    {
      reached := reached + 1 + (if rotations < |others| then others[rotations] else 0);
      rotations := rotations + 1;
    }
  }

  ghost function Highest(s: set<nat>): (h: nat)
    ensures forall x :: x in s ==> x <= h
    ensures s != {} ==> h in s
  {
    if s == {} then 0
    else
      var x :| x in s;
      var h := Highest(s - {x});
      assert forall y :: y in s ==> y == x || y in s - {x};
      if s - {x} == {} || x > h then x else h
  }

  // ---------------------------------------------------------------- administrators

  /** `resolveActiveAdmins`: the admin entries that are active members, sorted. */
  method ResolveActiveAdmins(entries: set<string>, members: seq<string>) returns (admins: seq<string>)
    ensures admins == ActiveAdmins(entries, members)
  {
    var active := set m | m in members;
    var result: set<string> := {};
    var rest := entries;
    while rest != {}
      invariant rest <= entries && result == (entries - rest) * active
      decreases |rest|
    {
      var did :| did in rest;
      if did in active { result := result + {did}; }
      rest := rest - {did};
    }
    assert result == set m | m in members && m in entries;
    admins := Text.Sort(result);
  }

  ghost function ActiveAdmins(entries: set<string>, members: seq<string>): (r: seq<string>)
    ensures Text.StrictlySorted(r) && forall d :: d in r <==> d in members && d in entries
  {
    Text.SortedOf(set m | m in members && m in entries)
  }

  /** `spaceAdminDids`, with its fallbacks for spaces that predate the admin set. Nobody who is not a member
      ever counts as an admin, and a space that has members has an admin: without entries the creator, or
      the first member where none is known, or the least one where the creator is no member any more. */
  method SpaceAdminDids(entries: set<string>, members: seq<string>, createdBy: Option<string>)
    returns (admins: seq<string>)
    ensures forall a :: a in admins ==> a in members
    ensures admins == [] <==> members == []
    ensures (exists m :: m in members && m in entries) ==> admins == ActiveAdmins(entries, members)
    ensures members != [] && (forall m :: m in members ==> m !in entries) ==>
      && |admins| == 1
      && (createdBy.None? ==> admins[0] == members[0])
      && (createdBy.Some? && createdBy.value in members ==> admins[0] == createdBy.value)
      && (createdBy.Some? && createdBy.value !in members ==>
            forall m :: m in members ==> m == admins[0] || Text.Before(admins[0], m))
  {
    admins := ResolveActiveAdmins(entries, members);
    if |admins| > 0 {
      assert admins[0] in admins;
      return;
    }
    assert forall m :: m in members ==> m !in entries;
    if createdBy.Some? || members != [] {
      var candidate := if createdBy.Some? then createdBy.value else members[0];
      if candidate in members { return [candidate]; }
    }
    if members == [] { return []; }
    var sorted := Text.Sort(set m | m in members);
    assert members[0] in sorted;
    assert sorted[0] in sorted && sorted[0] in members;
    forall m | m in members ensures m == sorted[0] || Text.Before(sorted[0], m) {
      assert m in sorted;
    }
    admins := [sorted[0]];
  }

  // ---------------------------------------------------------------- the document and its digest

  /** The membership part of a space document; a record value that is no valid event reads as `None`. */
  datatype Doc = Doc(createdBy: Option<string>, members: map<string, Option<Event>>, admins: set<string>)

  /** `readMembershipEvents`: an entry counts only if its key is the key of its value. */
  function ReadEvents(members: map<string, Option<Event>>): set<Event> {
    set k | k in members && members[k].Some? && Parse(k) == members[k] :: members[k].value
  }

  lemma ReadsWhatIsFiled(members: map<string, Option<Event>>, e: Event)
    ensures e in ReadEvents(members)
      <==> Format(e).Some? && Format(e).value in members && members[Format(e).value] == Some(e)
  {
    hide Parse, Format;
    if e in ReadEvents(members) {
      var k :| k in members && members[k] == Some(e) && Parse(k) == members[k];
      FormatOfParse(k);
    }
    if Format(e).Some? { ParseOfFormat(e); }
  }

  /** `writeMembershipEvent` never overwrites. */
  function WriteEvent(members: map<string, Option<Event>>, e: Event): map<string, Option<Event>>
    requires Format(e).Some?
  {
    var key := Format(e).value;
    if key in members then members else members[key := Some(e)]
  }

  /** Writing loses nothing and adds nothing else, and the event is there afterwards unless its key already
      held something that is not that event. */
  lemma WriteOnlyAdds(members: map<string, Option<Event>>, e: Event)
    requires Format(e).Some?
    ensures ReadEvents(members) <= ReadEvents(WriteEvent(members, e)) <= ReadEvents(members) + {e}
    ensures e in ReadEvents(WriteEvent(members, e))
      <==> Format(e).value !in members || members[Format(e).value] == Some(e)
  {
    hide Parse, Format;
    var after := WriteEvent(members, e);
    forall f ensures f in ReadEvents(members) ==> f in ReadEvents(after)
             ensures f in ReadEvents(after) ==> f in ReadEvents(members) || f == e
    {
      ReadsWhatIsFiled(members, f);
      ReadsWhatIsFiled(after, f);
    }
    ReadsWhatIsFiled(after, e);
  }

  datatype Digest = Digest(createdBy: Option<string>, events: seq<string>, admins: seq<string>)

  function Keys(events: set<Event>): set<string> {
    set e | e in events && Format(e).Some? :: Format(e).value
  }

  ghost function DigestOf(d: Doc): Digest {
    Digest(d.createdBy, Text.SortedOf(Keys(ReadEvents(d.members))), Text.SortedOf(d.admins))
  }

  lemma KeysDetermineEvents(a: map<string, Option<Event>>, b: map<string, Option<Event>>)
    requires Keys(ReadEvents(a)) == Keys(ReadEvents(b))
    ensures ReadEvents(a) == ReadEvents(b)
  {
    hide Parse, Format;
    forall e ensures e in ReadEvents(a) <==> e in ReadEvents(b) {
      ReadsWhatIsFiled(a, e);
      ReadsWhatIsFiled(b, e);
      if e in ReadEvents(a) {
        assert Format(e).value in Keys(ReadEvents(b));
        var f :| f in ReadEvents(b) && Format(f).Some? && Format(f) == Format(e);
        FormatIsInjective(e, f);
      } else if e in ReadEvents(b) {
        assert Format(e).value in Keys(ReadEvents(a));
        var f :| f in ReadEvents(a) && Format(f).Some? && Format(f) == Format(e);
        FormatIsInjective(e, f);
      }
    }
  }

  /** Two documents with equal digests have the same creator, the same members and the same admins: an
      observer that skips an unchanged digest misses nothing. */
  lemma EqualDigestsProjectEqually(a: Doc, b: Doc)
    ensures DigestOf(a) == DigestOf(b)
      <==> a.createdBy == b.createdBy && ReadEvents(a.members) == ReadEvents(b.members) && a.admins == b.admins
  {
    hide Parse, Format;
    Text.SortedOfIsInjective(Keys(ReadEvents(a.members)), Keys(ReadEvents(b.members)));
    Text.SortedOfIsInjective(a.admins, b.admins);
    if DigestOf(a) == DigestOf(b) { KeysDetermineEvents(a.members, b.members); }
  }
}
