/**
 Handing out names.  Every registered name is counted; a generated name is a prefix with the next number that is free.
 The object is the source's provider, the value `Ids` is its state, and runs are lists of calls.
 */
module UuidProvider {
  import opened TokenStates
  import opened Uuid

  type Id = seq<string>

  // ---------------------------------------------------------------- numbered names

  function Digit(d: nat): char
    requires d < 10
  {
    ('0' as int + d) as char
  }

  function Digits(n: nat): string {
    if n < 10 then [Digit(n)] else Digits(n / 10) + [Digit(n % 10)]
  }

  ghost predicate AllDigits(s: string) {
    forall k | 0 <= k < |s| :: '0' <= s[k] <= '9'
  }

  lemma {:induction false} DigitsAreDigits(n: nat)
    ensures AllDigits(Digits(n)) && |Digits(n)| > 0
  {
    if n >= 10 {
      DigitsAreDigits(n / 10);
    }
  }

  lemma {:induction false} DigitsDiffer(i: nat, j: nat)
    requires Digits(i) == Digits(j)
    ensures i == j
  {
    DigitsAreDigits(i / 10);
    DigitsAreDigits(j / 10);
    var a, b := Digits(i), Digits(j);
    assert a[|a| - 1] == b[|b| - 1];
    if i >= 10 && j >= 10 {
      assert a[..|a| - 1] == Digits(i / 10) && b[..|b| - 1] == Digits(j / 10);
      DigitsDiffer(i / 10, j / 10);
    }
  }

  function Numbered(p: string, k: nat): string {
    p + ['_'] + Digits(k)
  }

  /** Behind the underscore there are only digits. */
  lemma Underscore(w: string, a: string, i: nat)
    requires w == Numbered(a, i)
    ensures |a| < |w| && w[|a|] == '_' && forall k | |a| < k < |w| :: w[k] != '_'
  {
    DigitsAreDigits(i);
    forall k | |a| < k < |w| ensures w[k] != '_' {
      assert w[k] == Digits(i)[k - |a| - 1];
    }
  }

  /** The number is what follows the last underscore. */
  lemma NumbersDiffer(a: string, i: nat, b: string, j: nat)
    requires Numbered(a, i) == Numbered(b, j)
    ensures a == b && i == j
  {
    var w := Numbered(a, i);
    Underscore(w, a, i);
    Underscore(w, b, j);
    assert a == w[..|a|] && b == w[..|b|];
    assert Digits(i) == w[|a| + 1..] && Digits(j) == w[|b| + 1..];
    DigitsDiffer(i, j);
  }

  lemma NumberedSeparators(p: string, k: nat, q: nat)
    ensures IsAt(Numbered(p, k), q) <==> IsAt(p, q)
  {
    DigitsAreDigits(k);
    var w := Numbered(p, k);
    if q + 3 <= |w| && q + 2 >= |p| {
      assert w[q + 2] == '_' || w[q + 2] == Digits(k)[q + 1 - |p|];
    }
  }

  function Candidate(p: string, k: nat): Id {
    Parsed(Numbered(p, k))
  }

  /** The name under which a candidate is registered. */
  function Name(p: string, k: nat): string {
    Print(Candidate(p, k))
  }

  lemma PrintEnds(r: Id)
    requires r != []
    ensures |Print(r)| >= |r[0]| && Print(r)[|Print(r)| - |r[0]|..] == r[0]
  {
  }

  /** The number stays in the innermost component. */
  lemma FirstPiece(p: string, k: nat) returns (last: string, rest: seq<string>)
    ensures Pieces(Numbered(p, k), |Numbered(p, k)|) == [Numbered(last, k)] + rest
  {
    var w := Numbered(p, k);
    var pos := LastAt(w, |w|);
    if pos.None? {
      last, rest := p, [];
      assert w[..|w|] == w;
    } else {
      NumberedSeparators(p, k, pos.value);
      last, rest := p[pos.value + 3..], Pieces(w, pos.value);
      assert w[pos.value + 3..|w|] == Numbered(last, k);
    }
  }

  lemma NameEnds(p: string, k: nat)
    ensures Candidate(p, k) != []
    ensures exists stem :: Name(p, k) == Numbered(stem, k)
  {
    var last, rest := FirstPiece(p, k);
    var piece := Numbered(last, k);
    DigitsAreDigits(k);
    NamedFirst(piece, rest);
    var r := Candidate(p, k);
    assert r[0] == piece;
    PrintEnds(r);
    Stem(Name(p, k), last, k);
  }

  lemma Stem(v: string, last: string, k: nat)
    requires |v| >= |Numbered(last, k)| && v[|v| - |Numbered(last, k)|..] == Numbered(last, k)
    ensures exists stem :: v == Numbered(stem, k)
  {
    var front := v[..|v| - |Numbered(last, k)|];
    assert v == Numbered(front + last, k);
  }

  lemma NamesDiffer(p: string, i: nat, q: string, j: nat)
    requires Name(p, i) == Name(q, j)
    ensures i == j
  {
    NameEnds(p, i);
    NameEnds(q, j);
    var a :| Name(p, i) == Numbered(a, i);
    var b :| Name(q, j) == Numbered(b, j);
    NumbersDiffer(a, i, b, j);
  }

  // ---------------------------------------------------------------- names that are printed as they were read

  /** No two separators share a colon. */
  ghost predicate NoOverlap(w: string) {
    forall p: nat | IsAt(w, p) :: !IsAt(w, p + 2)
  }

  lemma PrintFirst(piece: string, rest: seq<string>)
    requires rest != []
    ensures Print([piece] + rest) == Print(rest) + SEPARATOR + piece
  {
    assert ([piece] + rest)[1..] == rest;
  }

  lemma {:induction false} PrintedSame(w: string, end: nat)
    requires end <= |w| && NoOverlap(w) && (end < |w| ==> IsAt(w, end))
    ensures Print(Pieces(w, end)) == w[..end]
  {
    var pos := LastAt(w, end);
    if pos.Some? {
      var p := pos.value;
      assert !IsAt(w, p + 2);
      PrintedSame(w, p);
      PrintFirst(Piece(w, p + 3, end), Pieces(w, p));
      assert w[..end] == w[..p] + SEPARATOR + w[p + 3..end];
    }
  }

  /** Where two separators overlap, a part of the text is printed twice. */
  lemma {:induction false} PrintedLonger(w: string, end: nat, q: nat)
    requires end <= |w| && (end < |w| ==> IsAt(w, end))
    ensures |Print(Pieces(w, end))| >= end
    ensures q + 2 <= end && IsAt(w, q) && IsAt(w, q + 2) ==> |Print(Pieces(w, end))| > end
  {
    var pos := LastAt(w, end);
    if pos.Some? {
      PrintedLonger(w, pos.value, q);
      PrintFirst(Piece(w, pos.value + 3, end), Pieces(w, pos.value));
    }
  }

  /** A name without a tilde is printed as it was read if and only if no two separators in it overlap. */
  lemma PrintsBackExactly(w: string)
    requires NoTilde(w)
    ensures Print(Parsed(w)) == w <==> NoOverlap(w)
  {
    PiecesNoTilde(w, |w|);
    AllNamed(Pieces(w, |w|));
    if NoOverlap(w) {
      PrintedSame(w, |w|);
      assert w[..|w|] == w;
    } else {
      var p: nat :| IsAt(w, p) && IsAt(w, p + 2);
      PrintedLonger(w, |w|, p);
    }
  }

  /** Leaving out the tildes makes the printed text shorter. */
  lemma {:induction false} NamedShorter(pieces: seq<string>)
    requires pieces != [] && Named(pieces) != []
    ensures |Print(Named(pieces))| <= |Print(pieces)|
    ensures |Print(Named(pieces))| == |Print(pieces)| ==> Named(pieces) == pieces
  {
    var piece, rest := pieces[0], pieces[1..];
    assert pieces == [piece] + rest;
    NamedFirst(piece, rest);
    if rest == [] {
      assert Named(rest) == [];
    } else {
      PrintFirst(piece, rest);
      if Named(rest) != [] {
        NamedShorter(rest);
        PrintFirst(piece, Named(rest));
      }
    }
  }

  /** If no two separators overlap in the printed name, whatever tildes there are: parsing it gives the components back if and
      only if none of them is a tilde, the name contains no other separator, and it does not start with one. */
  lemma RoundTripWithoutOverlap(r: Id)
    requires NoOverlap(Print(r))
    ensures RoundTrips(r) <==>
            r == [] || ((forall k | 0 <= k < |r| :: !IsTilde(r[k])) && Separators(Print(r), |Print(r)|) == |r| - 1 && !IsAt(Print(r), 0))
  {
    var w := Print(r);
    if r == [] {
      NothingParsesBack();
    } else if RoundTrips(r) {
      PrintedSame(w, |w|);
      assert w[..|w|] == w;
      NamedShorter(Pieces(w, |w|));
      PieceCount(w, |w|);
      NamedNoTilde(Pieces(w, |w|));
    } else if (forall k | 0 <= k < |r| :: !IsTilde(r[k])) && Separators(w, |w|) == |r| - 1 && !IsAt(w, 0) {
      ParsesBack(r);
    }
  }

  lemma {:induction false} NamedNoTilde(pieces: seq<string>)
    ensures forall k | 0 <= k < |Named(pieces)| :: !IsTilde(Named(pieces)[k])
  {
    if pieces != [] {
      NamedNoTilde(pieces[1..]);
    }
  }

  lemma NameOfNormal(p: string, k: nat)
    requires NoTilde(p) && NoOverlap(p)
    ensures Name(p, k) == Numbered(p, k)
  {
    var w := Numbered(p, k);
    DigitsAreDigits(k);
    forall q: nat | IsAt(w, q) ensures !IsAt(w, q + 2) {
      NumberedSeparators(p, k, q);
      NumberedSeparators(p, k, q + 2);
    }
    PrintsBackExactly(w);
  }

  // ---------------------------------------------------------------- the first free number

  /** Searches upwards; a name that is taken is not looked at again, since the others differ from it. */
  function FirstFree(taken: set<string>, p: string, k: nat): nat
    decreases |taken|
  {
    if Name(p, k) in taken then FirstFree(taken - {Name(p, k)}, p, k + 1) else k
  }

  /** It is the first number from k on whose name is not taken. */
  lemma {:induction false} FirstFreeIs(taken: set<string>, p: string, k: nat)
    ensures var f := FirstFree(taken, p, k);
            f >= k && Name(p, f) !in taken && forall j: nat | k <= j < f :: Name(p, j) in taken
    decreases |taken|
  {
    if Name(p, k) in taken {
      FirstFreeIs(taken - {Name(p, k)}, p, k + 1);
      var f := FirstFree(taken, p, k);
      if Name(p, f) == Name(p, k) {
        NamesDiffer(p, f, p, k);
      }
    }
  }

  lemma FirstFreeFrom(taken: set<string>, p: string, c: nat)
    ensures FirstFree(taken, p, c) >= c
  {
    FirstFreeIs(taken, p, c);
  }

  lemma Searching(taken: set<string>, p: string, c: nat, k: nat)
    requires c <= k <= FirstFree(taken, p, c)
    ensures Print(Candidate(p, k)) in taken <==> k < FirstFree(taken, p, c)
  {
    FirstFreeIs(taken, p, c);
    assert Name(p, k) in taken <==> k < FirstFree(taken, p, c);
  }

  lemma Overwritten(m: map<string, nat>, p: string, i: nat, j: nat)
    ensures m[p := i][p := j] == m[p := j]
  {
  }

  // ---------------------------------------------------------------- calls

  datatype Ids = Ids(names: map<string, nat>, counters: map<string, nat>, derived: Counters)

  function Counter(counters: map<string, nat>, p: string): nat {
    if p in counters then counters[p] else 0
  }

  type Counters = map<Id, map<string, nat>>

  function Children(derived: Counters, parent: Id): map<string, nat> {
    if parent in derived then derived[parent] else map[]
  }

  /** The next number for a name beneath a parent. */
  function NextOf(derived: Counters, parent: Id, sub: string): nat {
    Counter(Children(derived, parent), sub)
  }

  function Advanced(derived: Counters, parent: Id, sub: string, k: nat): Counters {
    derived[parent := Children(derived, parent)[sub := k]]
  }

  lemma AdvancedTwice(derived: Counters, parent: Id, sub: string, i: nat, j: nat)
    ensures Advanced(Advanced(derived, parent, sub, i), parent, sub, j) == Advanced(derived, parent, sub, j)
    ensures NextOf(Advanced(derived, parent, sub, i), parent, sub) == i
  {
    Overwritten(Children(derived, parent), sub, i, j);
  }

  /** How often a name is registered. */
  function Taken(names: map<string, nat>, w: string): nat {
    if w in names then names[w] else 0
  }

  function Registered(names: map<string, nat>, r: Id): map<string, nat> {
    names[Print(r) := Taken(names, Print(r)) + 1]
  }

  datatype Call =
    | Make(name: string)
    | MakeDerived(parent: Id, child: Id)
    | Generate(prefix: string)
    | GenerateDerived(parent: Id, sub: string)
    | Free(id: Id)

  function Beneath(parent: Id, sub: string): string {
    Print(parent) + SEPARATOR + sub
  }

  /** The new id of a call, or none if the call throws; nothing for `Free`. */
  function NewId(s: Ids, c: Call): Option<Id> {
    match c
    case Make(name) => if name in s.names || Parsed(name) == [] then None else Some(Parsed(name))
    case MakeDerived(parent, child) => if child + parent == [] then None else Some(child + parent)
    case Generate(p) => Some(Candidate(p, FirstFree(s.names.Keys, p, Counter(s.counters, p))))
    case GenerateDerived(parent, sub) =>
      var p := Beneath(parent, sub);
      Some(Candidate(p, FirstFree(s.names.Keys, p, NextOf(s.derived, parent, sub))))
    case Free(_) => None
  }

  function Called(s: Ids, c: Call): Ids {
    var names := if NewId(s, c).Some? then Registered(s.names, NewId(s, c).value) else s.names;
    match c
    case Make(_) => s.(names := names)
    case MakeDerived(_, _) => s.(names := names)
    case Generate(p) =>
      s.(names := names, counters := s.counters[p := FirstFree(s.names.Keys, p, Counter(s.counters, p)) + 1])
    case GenerateDerived(parent, sub) =>
      var next := FirstFree(s.names.Keys, Beneath(parent, sub), NextOf(s.derived, parent, sub)) + 1;
      s.(names := names, derived := Advanced(s.derived, parent, sub, next))
    case Free(id) =>
      if id == [] then s else s.(names := s.names - {Print(id)}, derived := s.derived - {Parent(id)})
  }

  class Provider {
    var names: map<string, nat>
    var counters: map<string, nat>
    var derived: Counters

    constructor ()
      ensures View() == Ids(map[], map[], map[])
    {
      names, counters, derived := map[], map[], map[];
    }

    ghost function View(): Ids
      reads this
    {
      Ids(names, counters, derived)
    }

    method RegisterUUID(r: Id)
      requires r != []
      modifies this`names
      ensures names == Registered(old(names), r)
    {
      var w := Print(r);
      if w !in names {
        names := names[w := 0];
      }
      names := names[w := names[w] + 1];
    }

    method MakeUUID(name: string) returns (r: Option<Id>)
      requires name !in names ==> !IsAt(name, 0)
      modifies this
      ensures r == NewId(old(View()), Make(name)) && View() == Called(old(View()), Make(name))
    {
      if name in names {
        return None;
      }
      var id := Parse(name);
      if id == [] {
        return None;
      }
      RegisterUUID(id);
      r := Some(id);
    }

    method MakeDerivedUUID(parent: Id, child: Id) returns (r: Option<Id>)
      modifies this
      ensures r == NewId(old(View()), MakeDerived(parent, child)) && View() == Called(old(View()), MakeDerived(parent, child))
    {
      var id := child;
      for i := 0 to |parent|
        invariant id == child + parent[..i] && View() == old(View())
      {
        assert parent[..i + 1] == parent[..i] + [parent[i]];
        id := id + [parent[i]];
      }
      assert parent[..|parent|] == parent;
      if id == [] {
        return None;
      }
      RegisterUUID(id);
      r := Some(id);
    }

    method GenerateNextName(p: string) returns (name: string)
      modifies this`counters
      ensures name == Numbered(p, Counter(old(counters), p))
      ensures counters == old(counters)[p := Counter(old(counters), p) + 1]
    {
      var next := if p in counters then counters[p] else 0;
      name := p + ['_'] + Digits(next);
      counters := counters[p := next + 1];
    }

    method Exists(r: Id) returns (taken: bool)
      ensures taken == (Print(r) in names)
    {
      taken := Print(r) in names;
    }

    method Next(p: string, ghost c: nat) returns (r: Id, taken: bool)
      requires !IsAt(p, 0) && c <= Counter(counters, p) <= FirstFree(names.Keys, p, c)
      modifies this`counters
      ensures !taken ==> r == Candidate(p, FirstFree(names.Keys, p, c))
      ensures taken <==> Counter(old(counters), p) < FirstFree(names.Keys, p, c)
      ensures counters == old(counters)[p := Counter(old(counters), p) + 1]
    {
      NumberedSeparators(p, Counter(counters, p), 0);
      Searching(names.Keys, p, c, Counter(counters, p));
      var name := GenerateNextName(p);
      r := Parse(name);
      taken := Exists(r);
    }

    /** Repeats until the id is not taken. */
    method Search(p: string) returns (r: Id)
      requires !IsAt(p, 0)
      modifies this`counters
      ensures var f := FirstFree(names.Keys, p, Counter(old(counters), p));
              r == Candidate(p, f) && counters == old(counters)[p := f + 1]
    {
      ghost var c := Counter(counters, p);
      ghost var f, k := FirstFree(names.Keys, p, c), c;
      FirstFreeFrom(names.Keys, p, c);
      var taken;
      r, taken := Next(p, c);
      while taken
        invariant c <= k <= f && taken == (k < f) && counters == old(counters)[p := k + 1]
        invariant !taken ==> r == Candidate(p, f)
        decreases f - k
      {
        Overwritten(old(counters), p, k + 1, k + 2);
        k := k + 1;
        r, taken := Next(p, c);
      }
    }

    method GenerateUUID(p: string) returns (r: Id)
      requires !IsAt(p, 0)
      modifies this
      ensures NewId(old(View()), Generate(p)) == Some(r) && View() == Called(old(View()), Generate(p))
      ensures Print(r) !in old(names)
    {
      GeneratedIsFree(View(), Generate(p));
      r := Search(p);
      RegisterUUID(r);
    }

    method GenerateNextSubName(parent: Id, sub: string) returns (name: string)
      modifies this`derived
      ensures name == Numbered(sub, NextOf(old(derived), parent, sub))
      ensures derived == Advanced(old(derived), parent, sub, NextOf(old(derived), parent, sub) + 1)
    {
      var children := if parent in derived then derived[parent] else map[];
      var next := if sub in children then children[sub] else 0;
      name := sub + ['_'] + Digits(next);
      derived := derived[parent := children[sub := next + 1]];
    }

    method NextDerived(parent: Id, front: string, sub: string, ghost c: nat) returns (r: Id, taken: bool)
      requires !IsAt(front + sub, 0) && c <= NextOf(derived, parent, sub) <= FirstFree(names.Keys, front + sub, c)
      modifies this`derived
      ensures !taken ==> r == Candidate(front + sub, FirstFree(names.Keys, front + sub, c))
      ensures taken <==> NextOf(old(derived), parent, sub) < FirstFree(names.Keys, front + sub, c)
      ensures derived == Advanced(old(derived), parent, sub, NextOf(old(derived), parent, sub) + 1)
    {
      ghost var k := NextOf(derived, parent, sub);
      NumberedSeparators(front + sub, k, 0);
      Searching(names.Keys, front + sub, c, k);
      var name := GenerateNextSubName(parent, sub);
      assert front + name == Numbered(front + sub, k);
      r := Parse(front + name);
      taken := Exists(r);
    }

    method SearchDerived(parent: Id, front: string, sub: string) returns (r: Id)
      requires !IsAt(front + sub, 0)
      modifies this`derived
      ensures var f := FirstFree(names.Keys, front + sub, NextOf(old(derived), parent, sub));
              r == Candidate(front + sub, f) && derived == Advanced(old(derived), parent, sub, f + 1)
    {
      ghost var c := NextOf(derived, parent, sub);
      ghost var f, k := FirstFree(names.Keys, front + sub, c), c;
      FirstFreeFrom(names.Keys, front + sub, c);
      var taken;
      r, taken := NextDerived(parent, front, sub, c);
      while taken
        invariant c <= k <= f && taken == (k < f) && derived == Advanced(old(derived), parent, sub, k + 1)
        invariant !taken ==> r == Candidate(front + sub, f)
        decreases f - k
      {
        AdvancedTwice(old(derived), parent, sub, k + 1, k + 2);
        k := k + 1;
        r, taken := NextDerived(parent, front, sub, c);
      }
    }

    method GenerateDerivedUUID(parent: Id, sub: string) returns (r: Id)
      requires !IsAt(Beneath(parent, sub), 0)
      modifies this
      ensures NewId(old(View()), GenerateDerived(parent, sub)) == Some(r)
      ensures View() == Called(old(View()), GenerateDerived(parent, sub))
      ensures Print(r) !in old(names)
    {
      GeneratedIsFree(View(), GenerateDerived(parent, sub));
      r := SearchDerived(parent, Print(parent) + SEPARATOR, sub);
      RegisterUUID(r);
    }

    method FreeUUID(id: Id)
      requires id != []
      modifies this
      ensures View() == Called(old(View()), Free(id))
    {
      names := names - {Print(id)};
      derived := derived - {Parent(id)};
    }
  }

  // ---------------------------------------------------------------- runs

  /** The ids that have been handed out and not been freed. */
  function Without(live: seq<Id>, w: string): seq<Id> {
    if live == [] then []
    else
      var l := live[|live| - 1];
      if Print(l) == w then Without(live[..|live| - 1], w) else Without(live[..|live| - 1], w) + [l]
  }

  function Held(s: Ids, live: seq<Id>, c: Call): seq<Id> {
    if c.Free? then (if c.id == [] then live else Without(live, Print(c.id)))
    else if NewId(s, c).Some? then live + [NewId(s, c).value]
    else live
  }

  function After(calls: seq<Call>, n: nat): (Ids, seq<Id>)
    requires n <= |calls|
  {
    if n == 0 then (Ids(map[], map[], map[]), [])
    else
      var (s, live) := After(calls, n - 1);
      (Called(s, calls[n - 1]), Held(s, live, calls[n - 1]))
  }

  function Times(live: seq<Id>, w: string): nat {
    if live == [] then 0
    else if Print(live[|live| - 1]) == w then Times(live[..|live| - 1], w) + 1
    else Times(live[..|live| - 1], w)
  }

  lemma {:induction false} TimesWithout(live: seq<Id>, x: string, w: string)
    ensures Times(Without(live, x), w) == if w == x then 0 else Times(live, w)
  {
    if live != [] {
      var front, l := live[..|live| - 1], live[|live| - 1];
      TimesWithout(front, x, w);
      assert (Without(front, x) + [l])[..|Without(front, x)|] == Without(front, x);
    }
  }

  lemma TimesOne(live: seq<Id>, r: Id, w: string)
    ensures Times(live + [r], w) == if Print(r) == w then Times(live, w) + 1 else Times(live, w)
  {
    assert (live + [r])[..|live|] == live;
  }

  ghost predicate Counted(names: map<string, nat>, live: seq<Id>) {
    forall w: string :: (w in names <==> Times(live, w) > 0) && (w in names ==> names[w] == Times(live, w))
  }

  /** In every run, a name is registered as often as it has been handed out since it was last freed. */
  lemma {:induction false} CountsExactly(calls: seq<Call>, n: nat)
    requires n <= |calls|
    ensures Counted(After(calls, n).0.names, After(calls, n).1)
  {
    if n > 0 {
      CountsExactly(calls, n - 1);
      var (s, live) := After(calls, n - 1);
      var c := calls[n - 1];
      var s', live' := Called(s, c), Held(s, live, c);
      forall w: string ensures (w in s'.names <==> Times(live', w) > 0) && (w in s'.names ==> s'.names[w] == Times(live', w)) {
        assert (w in s.names <==> Times(live, w) > 0) && (w in s.names ==> s.names[w] == Times(live, w));
        if c.Free? {
          if c.id != [] {
            TimesWithout(live, Print(c.id), w);
          }
        } else if NewId(s, c).Some? {
          TimesOne(live, NewId(s, c).value, w);
        }
      }
    }
  }

  /** A generated name is not registered, whatever has been made or freed before. */
  lemma GeneratedIsFree(s: Ids, c: Call)
    requires c.Generate? || c.GenerateDerived?
    ensures NewId(s, c).Some? && NewId(s, c).value != [] && Print(NewId(s, c).value) !in s.names
  {
    var p := if c.Generate? then c.prefix else Beneath(c.parent, c.sub);
    var k := if c.Generate? then Counter(s.counters, p) else NextOf(s.derived, c.parent, c.sub);
    FirstFreeIs(s.names.Keys, p, k);
    NameEnds(p, FirstFree(s.names.Keys, p, k));
  }

  /** What a caller can see to before the call. */
  ghost predicate Careful(s: Ids, c: Call) {
    && (c.Make? ==> NoTilde(c.name) && NoOverlap(c.name))
    && (c.MakeDerived? ==> Print(c.child + c.parent) !in s.names)
  }

  ghost predicate Distinct(live: seq<Id>) {
    forall i, j | 0 <= i < j < |live| :: Print(live[i]) != Print(live[j])
  }

  lemma {:induction false} TimesAt(live: seq<Id>, i: nat)
    requires i < |live|
    ensures Times(live, Print(live[i])) > 0
  {
    if i < |live| - 1 {
      TimesAt(live[..|live| - 1], i);
    }
  }

  lemma {:induction false} WithoutDistinct(live: seq<Id>, x: string)
    requires Distinct(live)
    ensures Distinct(Without(live, x))
    ensures forall k | 0 <= k < |Without(live, x)| :: Without(live, x)[k] in live
  {
    if live != [] {
      WithoutDistinct(live[..|live| - 1], x);
    }
  }

  lemma CarefulIsFree(s: Ids, c: Call)
    requires Careful(s, c) && NewId(s, c).Some?
    ensures Print(NewId(s, c).value) !in s.names
  {
    if c.Make? {
      PrintsBackExactly(c.name);
    } else if c.Generate? || c.GenerateDerived? {
      GeneratedIsFree(s, c);
    }
  }

  lemma AddedDistinct(names: map<string, nat>, live: seq<Id>, r: Id)
    requires Distinct(live) && Counted(names, live) && Print(r) !in names
    ensures Distinct(live + [r])
  {
    forall i | 0 <= i < |live| ensures Print(live[i]) != Print(r) {
      TimesAt(live, i);
    }
  }

  ghost predicate CarefulRun(calls: seq<Call>, n: nat)
    requires n <= |calls|
  {
    n == 0 || (CarefulRun(calls, n - 1) && Careful(After(calls, n - 1).0, calls[n - 1]))
  }

  /** In every run of careful calls, the ids that are held have different names. */
  lemma {:induction false} HeldAreDistinct(calls: seq<Call>, n: nat)
    requires n <= |calls| && CarefulRun(calls, n)
    ensures Distinct(After(calls, n).1)
  {
    if n > 0 {
      HeldAreDistinct(calls, n - 1);
      CountsExactly(calls, n - 1);
      HeldStaysDistinct(After(calls, n - 1).0, After(calls, n - 1).1, calls[n - 1]);
    }
  }

  lemma HeldStaysDistinct(s: Ids, live: seq<Id>, c: Call)
    requires Distinct(live) && Counted(s.names, live) && Careful(s, c)
    ensures Distinct(Held(s, live, c))
  {
    if c.Free? {
      WithoutDistinct(live, Print(c.id));
    } else if NewId(s, c).Some? {
      CarefulIsFree(s, c);
      AddedDistinct(s.names, live, NewId(s, c).value);
    }
  }

  /** For a name without a tilde: an accepted name is never one that is registered already if and only if no two
      separators in it overlap, since the text is looked up but its printed components are registered. */
  lemma MadeIsFreeExactly(name: string)
    requires NoTilde(name) && !IsAt(name, 0)
    ensures (forall s: Ids :: NewId(s, Make(name)).Some? ==> Print(NewId(s, Make(name)).value) !in s.names)
            <==> NoOverlap(name)
  {
    PrintsBackExactly(name);
    PiecesNoTilde(name, |name|);
    AllNamed(Pieces(name, |name|));
    PieceCount(name, |name|);
    if !NoOverlap(name) {
      var s := Ids(map[Print(Parsed(name)) := 1], map[], map[]);
      assert NewId(s, Make(name)) == Some(Parsed(name));
    }
  }

  // ---------------------------------------------------------------- names are not handed out again

  lemma {:induction false} CounterGrows(calls: seq<Call>, m: nat, n: nat, p: string)
    requires m <= n <= |calls|
    ensures Counter(After(calls, n).0.counters, p) >= Counter(After(calls, m).0.counters, p)
  {
    if m < n {
      CounterGrows(calls, m, n - 1, p);
      var (s, live) := After(calls, n - 1);
      if calls[n - 1].Generate? {
        var q := calls[n - 1].prefix;
        FirstFreeIs(s.names.Keys, q, Counter(s.counters, q));
      }
    }
  }

  lemma GeneratedNumber(s: Ids, p: string) returns (k: nat)
    ensures NewId(s, Generate(p)) == Some(Candidate(p, k))
    ensures k >= Counter(s.counters, p) && Counter(Called(s, Generate(p)).counters, p) == k + 1
  {
    k := FirstFree(s.names.Keys, p, Counter(s.counters, p));
    FirstFreeIs(s.names.Keys, p, Counter(s.counters, p));
  }

  /** A name generated for a plain prefix is never generated again, not even after it has been freed. */
  lemma NeverGeneratedAgain(calls: seq<Call>, m: nat, n: nat)
    requires m < n < |calls| && calls[m].Generate? && calls[n].Generate?
    requires calls[m].prefix == calls[n].prefix ||
             (NoTilde(calls[m].prefix) && NoOverlap(calls[m].prefix) && NoTilde(calls[n].prefix) && NoOverlap(calls[n].prefix))
    ensures Print(NewId(After(calls, m).0, calls[m]).value) != Print(NewId(After(calls, n).0, calls[n]).value)
  {
    var p, q := calls[m].prefix, calls[n].prefix;
    var i := GeneratedNumber(After(calls, m).0, p);
    var j := GeneratedNumber(After(calls, n).0, q);
    CounterGrows(calls, m + 1, n, p);
    if Name(p, i) == Name(q, j) {
      NamesDiffer(p, i, q, j);
      if p != q {
        NameOfNormal(p, i);
        NameOfNormal(q, j);
        NumbersDiffer(p, i, q, j);
      }
    }
  }

  /** A derived name is generated again once it has been freed, since freeing resets the counters of the parent. */
  lemma DerivedAgain(parent: Id, sub: string, s: Ids)
    requires parent != [] && RoundTrips([sub + ['_'] + Digits(0)] + parent)
    requires parent !in s.derived && Name(Beneath(parent, sub), 0) !in s.names
    ensures var c := GenerateDerived(parent, sub);
            var r := NewId(s, c).value;
            && NewId(s, c).Some?
            && NewId(Called(Called(s, c), Free(r)), c) == Some(r)
  {
    var p, c := Beneath(parent, sub), GenerateDerived(parent, sub);
    var name := sub + ['_'] + Digits(0);
    var r := NewId(s, c).value;
    assert Numbered(p, 0) == Print(parent) + SEPARATOR + name;
    ParentOfDerived(parent, name);
    assert FirstFree(s.names.Keys, p, 0) == 0;
    assert Parent(r) == parent;
    var s' := Called(Called(s, c), Free(r));
    assert parent !in s'.derived;
    assert Name(p, 0) !in s'.names;
  }
}
