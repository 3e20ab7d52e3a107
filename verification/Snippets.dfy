/** What is saved of the connections of a selection: one entry for each source, with all its targets in their order. */
module Snippets {
  import opened TokenStates
  import opened Uuid
  import opened Pasting

  /** Where the first n connections lead that start at this source, and their flags. */
  function TargetsFrom(ls: seq<Link>, n: nat, from: string): seq<string>
    requires n <= |ls|
  {
    if n == 0 then []
    else if Print(ls[n - 1].from) == from then TargetsFrom(ls, n - 1, from) + [Print(ls[n - 1].to)]
    else TargetsFrom(ls, n - 1, from)
  }

  function FlagsFrom(ls: seq<Link>, n: nat, from: string): seq<bool>
    requires n <= |ls|
  {
    if n == 0 then []
    else if Print(ls[n - 1].from) == from then FlagsFrom(ls, n - 1, from) + [ls[n - 1].active]
    else FlagsFrom(ls, n - 1, from)
  }

  ghost predicate SourcesDiffer(es: seq<Entry>) {
    forall i, j | 0 <= i < j < |es| :: es[i].uuid != es[j].uuid
  }

  ghost predicate Holds(e: Entry, ls: seq<Link>, n: nat)
    requires n <= |ls|
  {
    e.targets == TargetsFrom(ls, n, e.uuid) && e.active == FlagsFrom(ls, n, e.uuid) && e.targets != []
  }

  lemma {:induction false} NotPlaced(es: seq<Entry>, n: nat, from: string)
    requires n <= |es| && Place(es, n, from).None?
    ensures forall k | 0 <= k < n :: es[k].uuid != from
  {
    if n > 0 {
      NotPlaced(es, n - 1, from);
    }
  }

  ghost predicate Complete(es: seq<Entry>, ls: seq<Link>, n: nat)
    requires n <= |ls|
  {
    forall k | 0 <= k < n :: exists j :: 0 <= j < |es| && es[j].uuid == Print(ls[k].from)
  }

  lemma NoTargets(es: seq<Entry>, ls: seq<Link>, n: nat, from: string)
    requires n <= |ls| && Complete(es, ls, n) && forall j | 0 <= j < |es| :: es[j].uuid != from
    ensures TargetsFrom(ls, n, from) == [] && FlagsFrom(ls, n, from) == []
  {
    forall k | 0 <= k < n ensures Print(ls[k].from) != from {
      var j :| 0 <= j < |es| && es[j].uuid == Print(ls[k].from);
    }
    NoneFrom(ls, n, from);
  }

  lemma {:induction false} NoneFrom(ls: seq<Link>, n: nat, from: string)
    requires n <= |ls| && forall k | 0 <= k < n :: Print(ls[k].from) != from
    ensures TargetsFrom(ls, n, from) == [] && FlagsFrom(ls, n, from) == []
  {
    if n > 0 {
      NoneFrom(ls, n - 1, from);
    }
  }

  /** Every source has one entry, and the entry has all of its connections. */
  lemma {:induction false} EntriesAre(ls: seq<Link>, n: nat)
    requires n <= |ls|
    ensures var es := Grouped(ls, n);
            SourcesDiffer(es) && Complete(es, ls, n) && forall j | 0 <= j < |es| :: Holds(es[j], ls, n)
  {
    if n > 0 {
      EntriesAre(ls, n - 1);
      PushedEntry(Grouped(ls, n - 1), ls, n - 1);
    }
  }

  /** The sources stay, and a new one is added at the end if need be. */
  lemma PushedSources(es: seq<Entry>, l: Line)
    requires SourcesDiffer(es)
    ensures var r := Pushed(es, l);
            && SourcesDiffer(r) && |es| <= |r| && (forall j | 0 <= j < |es| :: r[j].uuid == es[j].uuid)
            && exists j :: 0 <= j < |r| && r[j].uuid == l.from
  {
    var p, r := Place(es, |es|, l.from), Pushed(es, l);
    if p.None? {
      NotPlaced(es, |es|, l.from);
      assert r[|es|].uuid == l.from;
    } else {
      assert r[p.value].uuid == l.from;
    }
  }

  lemma PushedHolds(es: seq<Entry>, ls: seq<Link>, n: nat)
    requires n < |ls| && SourcesDiffer(es) && Complete(es, ls, n) && forall j | 0 <= j < |es| :: Holds(es[j], ls, n)
    ensures forall j | 0 <= j < |Pushed(es, LineOf(ls[n]))| :: Holds(Pushed(es, LineOf(ls[n]))[j], ls, n + 1)
  {
    var from := Print(ls[n].from);
    var p, r := Place(es, |es|, from), Pushed(es, LineOf(ls[n]));
    if p.None? {
      NotPlaced(es, |es|, from);
      NoTargets(es, ls, n, from);
    }
    forall j | 0 <= j < |r| ensures Holds(r[j], ls, n + 1) {
      if j < |es| {
        assert Holds(es[j], ls, n);
      }
    }
  }

  lemma PushedEntry(es: seq<Entry>, ls: seq<Link>, n: nat)
    requires n < |ls| && SourcesDiffer(es) && Complete(es, ls, n) && forall j | 0 <= j < |es| :: Holds(es[j], ls, n)
    ensures var r := Pushed(es, LineOf(ls[n]));
            SourcesDiffer(r) && Complete(r, ls, n + 1) && forall j | 0 <= j < |r| :: Holds(r[j], ls, n + 1)
  {
    var r := Pushed(es, LineOf(ls[n]));
    PushedHolds(es, ls, n);
    PushedSources(es, LineOf(ls[n]));
    forall k | 0 <= k < n + 1 ensures exists j :: 0 <= j < |r| && r[j].uuid == Print(ls[k].from) {
      if k < n {
        var j :| 0 <= j < |es| && es[j].uuid == Print(ls[k].from);
        assert r[j].uuid == es[j].uuid;
      }
    }
  }
}
