/** Event ports had another name in older versions: the text of an id is brought up to date when it is read. */
module OldNames {
  import opened TokenStates
  import opened Uuid
  import opened UuidProvider

  const OLD: string := ['t', 'r', 'i', 'g', 'g', 'e', 'r', '_']
  const CURRENT: string := ['e', 'v', 'e', 'n', 't', '_']
  const LEGACY: string := SEPARATOR + OLD

  predicate LegacyAt(w: string, p: nat) {
    p <= |w| && LEGACY <= w[p..]
  }

  function FirstLegacy(w: string, p: nat): Option<nat>
    requires p <= |w|
    ensures FirstLegacy(w, p).Some? ==> p <= FirstLegacy(w, p).value && LegacyAt(w, FirstLegacy(w, p).value)
    decreases |w| - p
  {
    if LegacyAt(w, p) then Some(p) else if p == |w| then None else FirstLegacy(w, p + 1)
  }

  function Upgraded(w: string): string {
    var p := FirstLegacy(w, 0);
    if p.Some? then w[..p.value] + (SEPARATOR + CURRENT) + w[p.value + |LEGACY|..] else w
  }

  /** The name that a port is read under. */
  function CurrentName(name: string): string {
    if OLD <= name then CURRENT + name[|OLD|..] else name
  }

  // ---------------------------------------------------------------- plain names

  ghost predicate PlainText(w: string) {
    w != "" && NoBar(w) && NoTilde(w)
  }

  ghost predicate PlainId(r: Id) {
    r != [] && forall k | 0 <= k < |r| :: PlainText(r[k])
  }

  lemma PlainParses(r: Id)
    requires PlainId(r)
    ensures RoundTrips(r)
  {
    NoBarRoundTrips(r);
  }

  lemma PlainPort(name: string, node: Id)
    requires PlainText(name) && PlainId(node)
    ensures PlainId([name] + node) && Parent([name] + node) == node
  {
  }

  lemma CurrentIsPlain(name: string)
    requires PlainText(name)
    ensures PlainText(CurrentName(name))
  {
  }

  /** A generated id is plain if the kind of node is. */
  lemma CandidatePlain(kind: string, k: nat)
    requires PlainText(kind)
    ensures PlainId(Candidate(kind, k))
  {
    var w := Numbered(kind, k);
    DigitsAreDigits(k);
    forall i | 0 <= i < |w| ensures w[i] != '|' && w[i] != '~' {
      if i > |kind| {
        assert w[i] == Digits(k)[i - |kind| - 1];
      }
    }
    assert PlainText(w) && PlainId([w]);
    PlainParses([w]);
    assert Print([w]) == w;
  }

  // ---------------------------------------------------------------- the text of a port

  lemma {:induction false} FirstLegacyAt(w: string, p: nat, q: nat)
    requires p <= q <= |w| && LegacyAt(w, q) && forall r | p <= r < q :: !LegacyAt(w, r)
    ensures FirstLegacy(w, p) == Some(q)
    decreases q - p
  {
    if p < q {
      FirstLegacyAt(w, p + 1, q);
    }
  }

  /** Within the old name there is only the one bar. */
  lemma LegacyChars(w: string, p: nat)
    requires LegacyAt(w, p)
    ensures p + 11 <= |w| && w[p + 1] == '|'
    ensures forall q | p < q < p + 11 && q + 1 < |w| && w[q] == ':' :: w[q + 1] != '|'
  {
    var v := w[p..];
    forall q | p <= q < p + 11 ensures w[q] == LEGACY[q - p] {
      assert v[..|LEGACY|] == LEGACY && v[q - p] == w[q];
    }
  }

  /** A name without parents, as every generated one, holds no old name. */
  lemma SingleNotOld(w: string)
    requires PlainText(w)
    ensures forall p :: !LegacyAt(Print([w]), p)
  {
    PlainParses([w]);
    assert Print([w]) == w;
    forall p ensures !LegacyAt(w, p) {
      if LegacyAt(w, p) {
        LegacyChars(w, p);
      }
    }
  }

  lemma Within(u: string, v: string, p: nat)
    requires LegacyAt(u + v, p)
    ensures p + 11 <= |u| ==> LegacyAt(u, p)
  {
    var w := u + v;
    if p + 11 <= |u| {
      forall o | 0 <= o < 11 ensures u[p..][o] == LEGACY[o] {
        assert w[p..][..|LEGACY|] == LEGACY && w[p..][o] == w[p + o] == u[p + o];
      }
    }
  }

  /** The old name does not begin before the last separator. */
  lemma NotBefore(u: string, name: string, p: nat)
    requires p < |u| && forall q :: !LegacyAt(u, q)
    ensures !LegacyAt(u + SEPARATOR + name, p)
  {
    var w := u + SEPARATOR + name;
    assert w[|u|] == ':' && w[|u| + 1] == '|' && w == u + (SEPARATOR + name);
    if LegacyAt(w, p) {
      Within(u, SEPARATOR + name, p);
      LegacyChars(w, p);
    }
  }

  lemma NotBehind(u: string, name: string, p: nat)
    requires p > |u| && NoBar(name)
    ensures !LegacyAt(u + SEPARATOR + name, p)
  {
    var w := u + SEPARATOR + name;
    forall k | |u| + 2 <= k < |w| ensures w[k] != '|' {
      assert k > |u| + 2 ==> w[k] == name[k - |u| - 3];
    }
    if LegacyAt(w, p) {
      LegacyChars(w, p);
    }
  }

  lemma Regrouped(a: string, b: string, c: string, d: string)
    ensures a + (b + c) + d == a + b + (c + d)
  {
  }

  lemma Cut(a: string, b: string, c: string)
    ensures (a + b + c)[..|a|] == a && (a + b + c)[|a| + |b|..] == c
  {
  }

  lemma There(u: string, name: string)
    ensures LegacyAt(u + SEPARATOR + name, |u|) <==> OLD <= name
  {
    var w := u + SEPARATOR + name;
    assert w[|u|..] == SEPARATOR + name;
    if OLD <= name {
      assert name == OLD + name[|OLD|..];
      Regrouped([], SEPARATOR, OLD, name[|OLD|..]);
      assert SEPARATOR + name == LEGACY + name[|OLD|..];
    }
    if LegacyAt(w, |u|) {
      assert name == (SEPARATOR + name)[3..] && OLD == LEGACY[3..];
    }
  }

  /** The text of a port is read as the port of the same node with the current name. */
  lemma UpgradedPort(node: Id, name: string)
    requires PlainId(node) && PlainText(name) && forall p :: !LegacyAt(Print(node), p)
    ensures Upgraded(Print([name] + node)) == Print([CurrentName(name)] + node)
  {
    var u := Print(node);
    PrintFirst(name, node);
    PrintFirst(CurrentName(name), node);
    var w := u + SEPARATOR + name;
    There(u, name);
    forall p | 0 <= p < |u| ensures !LegacyAt(w, p) {
      NotBefore(u, name, p);
    }
    if OLD <= name {
      var rest := name[|OLD|..];
      assert name == OLD + rest;
      FirstLegacyAt(w, 0, |u|);
      Regrouped(u, SEPARATOR, OLD, rest);
      Regrouped(u, SEPARATOR, CURRENT, rest);
      Cut(u, LEGACY, rest);
    } else {
      forall p: nat ensures !LegacyAt(w, p) {
        if p > |u| {
          NotBehind(u, name, p);
        }
      }
    }
  }
}
