/** The ORDER BY of the pending query, seen run by run. */
module OutboxOrder {
  import opened RunnerTypes
  import opened RunnerTables

  predicate IsSent(sent: set<(RunId, nat)>, e: Event) { (e.runId, e.sequence) in sent }

  /** Within each run, later rows have larger sequence numbers. */
  ghost predicate Rising(events: seq<Event>) {
    forall i, j :: 0 <= i < j < |events| && events[i].runId == events[j].runId
      ==> events[i].sequence < events[j].sequence
  }

  ghost predicate EachRises(events: seq<Event>) {
    forall id: RunId, i, j :: 0 <= i < j < |Of(events, id)| ==> Of(events, id)[i].sequence < Of(events, id)[j].sequence
  }

  lemma {:induction false} RunsRise(events: seq<Event>)
    requires EachRises(events)
    ensures Rising(events)
  {
    if events != [] {
      var n := |events| - 1;
      var rest, e := events[..n], events[n];
      assert rest + [e] == events;
      forall id: RunId, i, j | 0 <= i < j < |Of(rest, id)|
        ensures Of(rest, id)[i].sequence < Of(rest, id)[j].sequence
      {
        OfAppend(rest, e, id);
        assert Of(events, id)[i] == Of(rest, id)[i] && Of(events, id)[j] == Of(rest, id)[j];
      }
      RunsRise(rest);
      forall i | 0 <= i < n && events[i].runId == e.runId ensures events[i].sequence < e.sequence {
        OfAppend(rest, e, e.runId);
        OfHas(rest, rest[i]);
        var k :| 0 <= k < |Of(rest, e.runId)| && Of(rest, e.runId)[k] == rest[i];
        assert Of(events, e.runId)[|Of(rest, e.runId)|] == e;
        assert Of(events, e.runId)[k] == rest[i];
      }
      forall i, j | 0 <= i < j < |events| && events[i].runId == events[j].runId
        ensures events[i].sequence < events[j].sequence
      {
        if j < n {
          assert rest[i] == events[i] && rest[j] == events[j];
        }
      }
    }
  }

  lemma OfHead(e: Event, rest: seq<Event>, id: RunId)
    ensures Of([e] + rest, id) == if e.runId == id then [e] + Of(rest, id) else Of(rest, id)
  {
    OfConcat([e], rest, id);
    OfAppend([], e, id);
    assert [] + [e] == [e];
  }

  lemma {:induction false} Placed(e: Event, sorted: seq<Event>, id: RunId)
    requires forall x :: x in sorted && x.runId == e.runId ==> e.sequence <= x.sequence
    ensures Of(Place(e, sorted), id) == if e.runId == id then [e] + Of(sorted, id) else Of(sorted, id)
  {
    if sorted == [] || Before(e, sorted[0]) {
      OfHead(e, sorted, id);
    } else {
      Placed(e, sorted[1..], id);
      OfHead(sorted[0], Place(e, sorted[1..]), id);
      assert [sorted[0]] + sorted[1..] == sorted;
      OfHead(sorted[0], sorted[1..], id);
    }
  }

  lemma {:induction false} PlacedSame(e: Event, sorted: seq<Event>, x: Event)
    ensures x in Place(e, sorted) <==> x == e || x in sorted
  {
    if sorted == [] || Before(e, sorted[0]) {
    } else {
      PlacedSame(e, sorted[1..], x);
      assert [sorted[0]] + sorted[1..] == sorted;
    }
  }

  /** The pending rows are the rows whose flag is not set. */
  lemma {:induction false} UnsentAre(events: seq<Event>, sent: set<(RunId, nat)>, x: Event)
    ensures x in Unsent(events, sent) <==> x in events && !IsSent(sent, x)
  {
    if events != [] {
      UnsentAre(events[1..], sent, x);
      PlacedSame(events[0], Unsent(events[1..], sent), x);
      assert [events[0]] + events[1..] == events;
    }
  }

  ghost predicate Sorted(s: seq<Event>) { forall i, j :: 0 <= i < j < |s| ==> Before(s[i], s[j]) }

  lemma {:induction false} PlaceSorts(e: Event, sorted: seq<Event>)
    requires Sorted(sorted)
    ensures Sorted(Place(e, sorted))
  {
    if sorted == [] || Before(e, sorted[0]) {
    } else {
      PlaceSorts(e, sorted[1..]);
      forall x | x in Place(e, sorted[1..]) ensures Before(sorted[0], x) {
        PlacedSame(e, sorted[1..], x);
      }
    }
  }

  lemma {:induction false} UnsentSorted(events: seq<Event>, sent: set<(RunId, nat)>)
    ensures Sorted(Unsent(events, sent))
  {
    if events != [] {
      UnsentSorted(events[1..], sent);
      PlaceSorts(events[0], Unsent(events[1..], sent));
    }
  }

  predicate SameKey(a: Event, b: Event) { a.runId == b.runId && a.sequence == b.sequence }

  /** The primary key of the events table. */
  predicate KeysUnique(events: seq<Event>) { forall i, j :: 0 <= i < j < |events| ==> !SameKey(events[i], events[j]) }

  lemma {:induction false} PlaceKeepsUnique(e: Event, sorted: seq<Event>)
    requires KeysUnique(sorted) && forall x :: x in sorted ==> !SameKey(e, x)
    ensures KeysUnique(Place(e, sorted))
  {
    if sorted == [] || Before(e, sorted[0]) {
    } else {
      PlaceKeepsUnique(e, sorted[1..]);
      forall x | x in Place(e, sorted[1..]) ensures !SameKey(sorted[0], x) {
        PlacedSame(e, sorted[1..], x);
      }
    }
  }

  /** No key is pending twice. */
  lemma {:induction false} UnsentUnique(events: seq<Event>, sent: set<(RunId, nat)>)
    requires KeysUnique(events)
    ensures KeysUnique(Unsent(events, sent))
  {
    if events != [] {
      var rest := Unsent(events[1..], sent);
      UnsentUnique(events[1..], sent);
      forall x | x in rest ensures !SameKey(events[0], x) {
        UnsentAre(events[1..], sent, x);
      }
      PlaceKeepsUnique(events[0], rest);
    }
  }

  function Keep(evs: seq<Event>, sent: set<(RunId, nat)>): seq<Event> {
    if evs == [] then []
    else if IsSent(sent, evs[0]) then Keep(evs[1..], sent) else [evs[0]] + Keep(evs[1..], sent)
  }

  /** Sorting leaves each run's unsent events in table order. */
  lemma {:induction false} UnsentOf(events: seq<Event>, sent: set<(RunId, nat)>, id: RunId)
    requires Rising(events)
    ensures Of(Unsent(events, sent), id) == Keep(Of(events, id), sent)
  {
    if events != [] {
      var e, rest := events[0], events[1..];
      assert [e] + rest == events;
      UnsentOf(rest, sent, id);
      OfHead(e, rest, id);
      if !IsSent(sent, e) {
        forall x | x in Unsent(rest, sent) && x.runId == e.runId ensures e.sequence <= x.sequence {
          UnsentAre(rest, sent, x);
          var k :| 0 <= k < |rest| && rest[k] == x;
          assert events[k + 1] == x;
        }
        Placed(e, Unsent(rest, sent), id);
      }
      if e.runId == id {
        assert ([e] + Of(rest, id))[1..] == Of(rest, id);
      }
    }
  }

  function SentCount(evs: seq<Event>, sent: set<(RunId, nat)>): (n: nat)
    ensures n <= |evs|
    ensures forall i :: 0 <= i < n ==> IsSent(sent, evs[i])
  {
    if evs == [] || !IsSent(sent, evs[0]) then 0 else 1 + SentCount(evs[1..], sent)
  }

  lemma {:induction false} KeepIsTail(evs: seq<Event>, sent: set<(RunId, nat)>)
    requires forall i, j :: 0 <= i < j < |evs| && IsSent(sent, evs[j]) ==> IsSent(sent, evs[i])
    ensures Keep(evs, sent) == evs[SentCount(evs, sent)..]
  {
    if evs != [] {
      KeepIsTail(evs[1..], sent);
      if IsSent(sent, evs[0]) {
        assert evs[1..][SentCount(evs[1..], sent)..] == evs[SentCount(evs, sent)..];
      } else {
        assert SentCount(evs[1..], sent) == 0 by {
          assert evs[1..] != [] ==> evs[1..][0] == evs[1];
        }
      }
    }
  }

  lemma OfTake(all: seq<Event>, n: nat, id: RunId)
    requires n <= |all|
    ensures Of(all[..n], id) <= Of(all, id)
  {
    assert all == all[..n] + all[n..];
    OfConcat(all[..n], all[n..], id);
  }
}
