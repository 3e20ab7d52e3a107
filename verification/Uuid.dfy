/**
 Names of nested objects: a list of components, the innermost first, printed from the outermost to the innermost with
 a separator in between.  Parsing searches for the separators from the end.
 */
module Uuid {
  import opened TokenStates

  const SEPARATOR: string := ":|:"

  predicate IsAt(w: string, p: nat) {
    p + 3 <= |w| && w[p] == ':' && w[p + 1] == '|' && w[p + 2] == ':'
  }

  /** The last place below n where a separator starts. */
  function LastAt(w: string, n: nat): (p: Option<nat>)
    ensures p.Some? ==> p.value < n && IsAt(w, p.value) && forall q | p.value < q < n :: !IsAt(w, q)
    ensures p.None? ==> forall q: nat | q < n :: !IsAt(w, q)
  {
    if n == 0 then None else if IsAt(w, n - 1) then Some(n - 1) else LastAt(w, n - 1)
  }

  function Print(r: seq<string>): string {
    if r == [] then "~" else if |r| == 1 then r[0] else Print(r[1..]) + SEPARATOR + r[0]
  }

  /** The text between two separators; if they overlap, all that follows the first. */
  function Piece(w: string, begin: nat, end: nat): string
    requires begin <= |w| && end <= |w|
  {
    if begin <= end then w[begin..end] else w[begin..]
  }

  /** The pieces in front of `end`, the last one first. */
  function Pieces(w: string, end: nat): seq<string>
    requires end <= |w|
  {
    var pos := LastAt(w, end);
    if pos.None? then [w[..end]] + [] else [Piece(w, pos.value + 3, end)] + Pieces(w, pos.value)
  }

  predicate IsTilde(s: string) {
    |s| == 1 && s[0] == '~'
  }

  /** An empty name is printed as "~", which stands for no component. */
  function Named(pieces: seq<string>): seq<string> {
    if pieces == [] then []
    else if IsTilde(pieces[0]) then Named(pieces[1..])
    else [pieces[0]] + Named(pieces[1..])
  }

  function Parsed(w: string): seq<string> {
    Named(Pieces(w, |w|))
  }

  lemma NamedFirst(piece: string, rest: seq<string>)
    ensures IsTilde(piece) ==> Named([piece] + rest) == Named(rest)
    ensures !IsTilde(piece) ==> Named([piece] + rest) == [piece] + Named(rest)
  {
    assert ([piece] + rest)[1..] == rest;
  }

  /** For a name that does not start with a separator. */
  method Parse(w: string) returns (r: seq<string>)
    requires !IsAt(w, 0)
    ensures r == Parsed(w)
  {
    var end: nat := |w|;
    r := [];
    while true
      invariant end <= |w| && (end > 0 || w == "")
      invariant r + Named(Pieces(w, end)) == Parsed(w)
      decreases end
    {
      var pos := LastAt(w, if end == 0 then |w| else end);
      var begin: nat := 0;
      if pos.Some? {
        begin := pos.value + 3;
      }
      var subId := Piece(w, begin, end);
      ghost var rest := if pos.Some? then Pieces(w, pos.value) else [];
      assert Pieces(w, end) == [subId] + rest;
      NamedFirst(subId, rest);
      if !IsTilde(subId) {
        assert r + ([subId] + Named(rest)) == (r + [subId]) + Named(rest);
        r := r + [subId];
      }
      if begin == 0 {
        return;
      }
      end := pos.value;
    }
  }

  // ---------------------------------------------------------------- when parsing returns

  /** The next value of `end`, or nothing if the search returns; an end of 0 means the whole text. */
  function NextEnd(w: string, end: nat): Option<nat> {
    LastAt(w, if end == 0 then |w| else end)
  }

  /** The value of `end` after k rounds of the search. */
  function EndAfter(w: string, k: nat): Option<nat> {
    if k == 0 then Some(|w|)
    else
      var before := EndAfter(w, k - 1);
      if before.None? then None else NextEnd(w, before.value)
  }

  ghost predicate Returns(w: string) {
    exists k :: EndAfter(w, k).None?
  }

  lemma {:induction false} NeverEnds(w: string, k: nat)
    requires IsAt(w, 0)
    ensures EndAfter(w, k).Some?
  {
    if k > 0 {
      NeverEnds(w, k - 1);
    }
  }

  lemma {:induction false} EndFalls(w: string, k: nat)
    requires !IsAt(w, 0)
    ensures EndAfter(w, k).None? || (EndAfter(w, k).value + k <= |w| && (w == "" || EndAfter(w, k).value > 0))
  {
    if k > 0 {
      EndFalls(w, k - 1);
    }
  }

  /** The search comes to an end exactly for the names that do not start with a separator. */
  lemma ReturnsExactly(w: string)
    ensures Returns(w) <==> !IsAt(w, 0)
  {
    if IsAt(w, 0) {
      forall k ensures EndAfter(w, k).Some? {
        NeverEnds(w, k);
      }
    } else {
      EndFalls(w, |w| + 1);
      assert EndAfter(w, |w| + 1).None?;
    }
  }

  // ---------------------------------------------------------------- round trip

  /** How many separators start below n; they may overlap. */
  function Separators(w: string, n: nat): nat {
    if n == 0 then 0 else if IsAt(w, n - 1) then Separators(w, n - 1) + 1 else Separators(w, n - 1)
  }

  lemma {:induction false} SeparatorsBelow(w: string, p: nat, n: nat)
    requires p <= n && forall q | p <= q < n :: !IsAt(w, q)
    ensures Separators(w, n) == Separators(w, p)
  {
    if p < n {
      SeparatorsBelow(w, p, n - 1);
    }
  }

  /** Every separator ends a piece. */
  lemma {:induction false} PieceCount(w: string, end: nat)
    requires end <= |w|
    ensures |Pieces(w, end)| == Separators(w, end) + 1
  {
    var pos := LastAt(w, end);
    if pos.Some? {
      PieceCount(w, pos.value);
      SeparatorsBelow(w, pos.value + 1, end);
    } else {
      SeparatorsBelow(w, 0, end);
    }
  }

  ghost predicate NoTilde(w: string) {
    forall k | 0 <= k < |w| :: w[k] != '~'
  }

  lemma {:induction false} PiecesNoTilde(w: string, end: nat)
    requires end <= |w| && NoTilde(w)
    ensures forall k | 0 <= k < |Pieces(w, end)| :: NoTilde(Pieces(w, end)[k])
  {
    var pos := LastAt(w, end);
    if pos.Some? {
      PiecesNoTilde(w, pos.value);
    }
  }

  lemma {:induction false} AllNamed(pieces: seq<string>)
    requires forall k | 0 <= k < |pieces| :: !IsTilde(pieces[k])
    ensures Named(pieces) == pieces
  {
    if pieces != [] {
      AllNamed(pieces[1..]);
      assert pieces == [pieces[0]] + pieces[1..];
    }
  }

  /** The separators of u and the one that follows. */
  function Expected(u: string, n: nat): nat {
    if n == 0 then 0
    else if n - 1 == |u| || IsAt(u, n - 1) then Expected(u, n - 1) + 1
    else Expected(u, n - 1)
  }

  lemma {:induction false} ExpectedIs(u: string, n: nat)
    ensures Expected(u, n) == if n <= |u| then Separators(u, n) else Separators(u, |u|) + 1
  {
    if n > 0 {
      ExpectedIs(u, n - 1);
    }
  }

  lemma JoinedAt(u: string, c: string, p: nat)
    ensures IsAt(u, p) ==> IsAt(u + SEPARATOR + c, p)
    ensures IsAt(u + SEPARATOR + c, |u|)
    ensures IsAt(u + SEPARATOR + c, p) && p + 3 <= |u| ==> IsAt(u, p)
  {
  }

  /** There are at least the expected separators, and if there are no more, no other place is one. */
  lemma {:induction false} SeparatorsJoined(u: string, c: string, n: nat)
    requires n <= |u + SEPARATOR + c|
    ensures Separators(u + SEPARATOR + c, n) >= Expected(u, n)
    ensures Separators(u + SEPARATOR + c, n) == Expected(u, n) ==>
              forall p: nat | p < n && IsAt(u + SEPARATOR + c, p) :: p == |u| || IsAt(u, p)
  {
    if n > 0 {
      SeparatorsJoined(u, c, n - 1);
      JoinedAt(u, c, n - 1);
    }
  }

  /** A printed name has at least the separators between its components. */
  lemma {:induction false} SeparatorsPrinted(r: seq<string>)
    requires r != []
    ensures Separators(Print(r), |Print(r)|) >= |r| - 1
    ensures |r| > 1 && Separators(Print(r), |Print(r)|) == |r| - 1 ==>
              var u := Print(r[1..]);
              && Separators(u, |u|) == |r| - 2
              && forall p: nat | IsAt(Print(r), p) :: p == |u| || IsAt(u, p)
    decreases |r|
  {
    if |r| > 1 {
      var u, c := Print(r[1..]), r[0];
      SeparatorsPrinted(r[1..]);
      SeparatorsJoined(u, c, |u + SEPARATOR + c|);
      ExpectedIs(u, |u + SEPARATOR + c|);
    }
  }

  /** Without other separators, the pieces of a printed name are its components, also at the start of a longer text. */
  lemma {:induction false} PrintedPieces(r: seq<string>, w: string)
    requires r != [] && Print(r) <= w
    requires Separators(Print(r), |Print(r)|) == |r| - 1
    requires forall p: nat | p < |Print(r)| :: IsAt(w, p) ==> IsAt(Print(r), p)
    ensures Pieces(w, |Print(r)|) == r
    decreases |r|
  {
    var v := Print(r);
    SeparatorsPrinted(r);
    if |r| == 1 {
      NoSeparators(v, |v|);
      assert LastAt(w, |v|).None?;
      assert w[..|v|] == r[0];
      assert Pieces(w, |v|) == [r[0]];
    } else {
      var u := Print(r[1..]);
      JoinedAt(u, r[0], |u|);
      assert IsAt(w, |u|);
      assert LastAt(w, |v|) == Some(|u|);
      assert w[..|v|] == u + SEPARATOR + r[0];
      assert Piece(w, |u| + 3, |v|) == r[0];
      assert u == w[..|u|];
      PrintedPieces(r[1..], w);
      assert Pieces(w, |v|) == [r[0]] + r[1..];
    }
  }

  lemma {:induction false} NoSeparators(w: string, n: nat)
    requires Separators(w, n) == 0
    ensures forall p: nat | p < n :: !IsAt(w, p)
  {
    if n > 0 {
      NoSeparators(w, n - 1);
    }
  }

  /** Parsing the printed name returns, with the same components. */
  ghost predicate RoundTrips(r: seq<string>) {
    !IsAt(Print(r), 0) && Parsed(Print(r)) == r
  }

  lemma ParsesBack(r: seq<string>)
    requires r != [] && Separators(Print(r), |Print(r)|) == |r| - 1 && !IsAt(Print(r), 0)
    requires forall k | 0 <= k < |r| :: !IsTilde(r[k])
    ensures RoundTrips(r)
  {
    PrintedPieces(r, Print(r));
    AllNamed(r);
  }

  lemma NothingParsesBack()
    ensures RoundTrips([])
  {
    assert LastAt("~", 1).None?;
    assert "~"[..1] == "~";
    NamedFirst("~", []);
    assert Pieces("~", 1) == ["~"] + [];
  }

  lemma {:induction false} PrintNoTilde(r: seq<string>)
    requires r != [] && forall k | 0 <= k < |r| :: NoTilde(r[k])
    ensures NoTilde(Print(r))
    decreases |r|
  {
    if |r| > 1 {
      PrintNoTilde(r[1..]);
    }
  }

  /** For components without a tilde: parsing the printed name gives them back if and only if the name contains no
      separator but those that have been printed, and does not start with one. */
  lemma RoundTripExactly(r: seq<string>)
    requires r != [] && forall k | 0 <= k < |r| :: NoTilde(r[k])
    ensures RoundTrips(r) <==> Separators(Print(r), |Print(r)|) == |r| - 1 && !IsAt(Print(r), 0)
  {
    var w := Print(r);
    PrintNoTilde(r);
    PiecesNoTilde(w, |w|);
    AllNamed(Pieces(w, |w|));
    PieceCount(w, |w|);
    if Separators(w, |w|) == |r| - 1 && !IsAt(w, 0) {
      ParsesBack(r);
    }
  }

  /** With a tilde and separators that overlap, a name with another separator may be given back by accident. */
  lemma RoundTripByAccident()
    ensures var r := ["|:~", "a"];
            RoundTrips(r) && Separators(Print(r), |Print(r)|) == 2
  {
    var w := "a:|:|:~";
    assert Print(["|:~", "a"][1..]) == "a";
    assert Print(["|:~", "a"]) == w;
    assert !IsAt(w, 0) && IsAt(w, 1) && !IsAt(w, 2) && IsAt(w, 3) && !IsAt(w, 4) && !IsAt(w, 5) && !IsAt(w, 6);
    assert LastAt(w, 7) == Some(3) && LastAt(w, 3) == Some(1) && LastAt(w, 1) == None;
    assert Piece(w, 6, 7) == "~" && Piece(w, 4, 3) == "|:~" && w[..1] == "a";
    assert Pieces(w, 1) == ["a"] + [];
    assert Pieces(w, 3) == ["|:~"] + ["a"];
    assert Pieces(w, 7) == ["~"] + ["|:~", "a"];
    NamedFirst("~", ["|:~", "a"]);
    NamedFirst("|:~", ["a"]);
    NamedFirst("a", []);
    assert Separators(w, 1) == 0 && Separators(w, 3) == 1 && Separators(w, 4) == 2 && Separators(w, 7) == 2;
  }

  // ---------------------------------------------------------------- components without a bar

  function Bars(w: string, n: nat): nat
    requires n <= |w|
  {
    if n == 0 then 0 else if w[n - 1] == '|' then Bars(w, n - 1) + 1 else Bars(w, n - 1)
  }

  lemma {:induction false} BarsConcat(a: string, b: string, n: nat)
    requires n <= |b|
    ensures Bars(a + b, |a| + n) == Bars(a, |a|) + Bars(b, n)
  {
    if n == 0 {
      BarsPrefix(a, b, |a|);
    } else {
      BarsConcat(a, b, n - 1);
    }
  }

  lemma {:induction false} BarsPrefix(a: string, b: string, n: nat)
    requires n <= |a|
    ensures Bars(a + b, n) == Bars(a, n)
  {
    if n > 0 {
      BarsPrefix(a, b, n - 1);
    }
  }

  lemma {:induction false} SeparatorsHaveBars(w: string, n: nat)
    requires n < |w|
    ensures Separators(w, n) <= Bars(w, n + 1)
  {
    if n > 0 {
      SeparatorsHaveBars(w, n - 1);
    }
  }

  ghost predicate NoBar(w: string) {
    forall k | 0 <= k < |w| :: w[k] != '|'
  }

  lemma {:induction false} NoBars(w: string, n: nat)
    requires n <= |w| && NoBar(w)
    ensures Bars(w, n) == 0
  {
    if n > 0 {
      NoBars(w, n - 1);
    }
  }

  lemma {:induction false} PrintedBars(r: seq<string>)
    requires r != [] && forall k | 0 <= k < |r| :: NoBar(r[k])
    ensures Bars(Print(r), |Print(r)|) == |r| - 1
    decreases |r|
  {
    if |r| == 1 {
      NoBars(r[0], |r[0]|);
    } else {
      var u := Print(r[1..]);
      PrintedBars(r[1..]);
      NoBars(r[0], |r[0]|);
      BarsConcat(u, SEPARATOR, 3);
      BarsConcat(u + SEPARATOR, r[0], |r[0]|);
      assert Bars(SEPARATOR, 1) == 0 && Bars(SEPARATOR, 2) == 1 && Bars(SEPARATOR, 3) == 1;
    }
  }

  lemma {:induction false} StartsWithRoot(r: seq<string>)
    requires r != []
    ensures r[|r| - 1] <= Print(r)
    ensures |r| > 1 ==> r[|r| - 1] + SEPARATOR <= Print(r)
    decreases |r|
  {
    if |r| > 1 {
      StartsWithRoot(r[1..]);
    }
  }

  /** It is enough that no component contains a bar or is the tilde, and the outermost one is not empty. */
  lemma NoBarRoundTrips(r: seq<string>)
    requires r != [] && forall k | 0 <= k < |r| :: NoBar(r[k]) && !IsTilde(r[k])
    requires r[|r| - 1] != ""
    ensures RoundTrips(r)
  {
    var w, root := Print(r), r[|r| - 1];
    PrintedBars(r);
    SeparatorsPrinted(r);
    StartsWithRoot(r);
    SeparatorsHaveBars(w, |w| - 1);
    assert Separators(w, |w|) <= |r| - 1;
    if |root| >= 2 {
      assert w[1] == root[1];
    } else if |r| > 1 {
      assert w[1] == (root + SEPARATOR)[1];
    }
    ParsesBack(r);
  }

  // ---------------------------------------------------------------- derived names

  /** The name of something that belongs to `parent`. */
  function Derived(parent: seq<string>, name: string): seq<string> {
    Parsed(Print(parent) + SEPARATOR + name)
  }

  function Parent(r: seq<string>): seq<string> {
    if r == [] then r else r[1..]
  }

  /** The parent of a derived name is what it has been derived from. */
  lemma ParentOfDerived(parent: seq<string>, name: string)
    requires parent != [] && RoundTrips([name] + parent)
    ensures Derived(parent, name) == [name] + parent && Parent(Derived(parent, name)) == parent
  {
    assert ([name] + parent)[1..] == parent;
  }
}
