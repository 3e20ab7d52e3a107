/** The texts of generated names, and what each call leaves alone. */
module GeneratedNames {
  import opened TokenStates
  import opened Uuid
  import opened UuidProvider

  /** The number that a text of digits stands for. */
  function ValueOf(digits: string): int {
    if digits == "" then 0 else ValueOf(digits[..|digits| - 1]) * 10 + (digits[|digits| - 1] as int - '0' as int)
  }

  lemma {:induction false} DigitsValue(n: nat)
    ensures ValueOf(Digits(n)) == n
    ensures n > 0 ==> Digits(n)[0] != '0'
  {
    if n >= 10 {
      DigitsValue(n / 10);
      assert Digits(n)[..|Digits(n)| - 1] == Digits(n / 10);
      DigitsAreDigits(n / 10);
    } else {
      assert Digits(n)[..0] == "";
    }
  }

  /** The text is the prefix, an underscore and the decimal number k. */
  ghost predicate IsNumber(w: string, prefix: string, k: nat) {
    && prefix <= w && |prefix| + 1 < |w| && w[|prefix|] == '_'
    && AllDigits(w[|prefix| + 1..]) && ValueOf(w[|prefix| + 1..]) == k && (k > 0 ==> w[|prefix| + 1] != '0')
  }

  lemma NumberedIs(p: string, k: nat)
    ensures IsNumber(Numbered(p, k), p, k)
  {
    DigitsAreDigits(k);
    DigitsValue(k);
    assert Numbered(p, k)[|p| + 1..] == Digits(k);
    assert Numbered(p, k)[|p| + 1] == Digits(k)[0];
  }

  /** No two separators of the text overlap, and it has no tilde: it is printed as it is read. */
  ghost predicate Normal(p: string) {
    NoTilde(p) && NoOverlap(p)
  }

  ghost predicate HasNumber(names: map<string, nat>, p: string, j: nat) {
    exists w :: w in names && IsNumber(w, p, j)
  }

  /** The name with the least number from c on that is free. */
  ghost predicate LeastFree(names: map<string, nat>, id: Id, p: string, c: nat, k: nat) {
    && IsNumber(Print(id), p, k) && Print(id) !in names && c <= k
    && forall j: nat | c <= j < k :: HasNumber(names, p, j)
  }

  lemma CandidateIsLeast(names: map<string, nat>, p: string, c: nat)
    requires Normal(p)
    ensures var k := FirstFree(names.Keys, p, c); LeastFree(names, Candidate(p, k), p, c, k)
  {
    var k := FirstFree(names.Keys, p, c);
    FirstFreeIs(names.Keys, p, c);
    NameOfNormal(p, k);
    NumberedIs(p, k);
    forall j: nat | c <= j < k ensures HasNumber(names, p, j) {
      NameOfNormal(p, j);
      NumberedIs(p, j);
      assert Name(p, j) in names && IsNumber(Name(p, j), p, j);
    }
  }

  ghost predicate SameCounters(a: map<string, nat>, b: map<string, nat>, p: string) {
    forall q | q != p :: Counter(a, q) == Counter(b, q)
  }

  /** A generated name is the prefix and the least number that is free, from the one behind the number generated last for this
      prefix, or from 0; nothing else is counted. */
  lemma GeneratedIs(s: Ids, p: string) returns (id: Id, k: nat)
    requires Normal(p)
    ensures NewId(s, Generate(p)) == Some(id) && LeastFree(s.names, id, p, Counter(s.counters, p), k)
    ensures var r := Called(s, Generate(p));
            && Counter(r.counters, p) == k + 1 && SameCounters(s.counters, r.counters, p) && r.derived == s.derived
            && r.names == s.names[Print(id) := 1]
  {
    k := FirstFree(s.names.Keys, p, Counter(s.counters, p));
    id := Candidate(p, k);
    CandidateIsLeast(s.names, p, Counter(s.counters, p));
  }

  ghost predicate SameDerived(a: Counters, b: Counters, parent: Id, sub: string) {
    forall q, t | q != parent || t != sub :: NextOf(a, q, t) == NextOf(b, q, t)
  }

  /** The same beneath a parent, whose printed name comes first; it has counters of its own. */
  lemma DerivedIs(s: Ids, parent: Id, sub: string) returns (id: Id, k: nat)
    requires Normal(Print(parent) + SEPARATOR + sub)
    ensures NewId(s, GenerateDerived(parent, sub)) == Some(id)
    ensures LeastFree(s.names, id, Print(parent) + SEPARATOR + sub, NextOf(s.derived, parent, sub), k)
    ensures var r := Called(s, GenerateDerived(parent, sub));
            && NextOf(r.derived, parent, sub) == k + 1 && SameDerived(s.derived, r.derived, parent, sub)
            && r.counters == s.counters && r.names == s.names[Print(id) := 1]
  {
    var p := Print(parent) + SEPARATOR + sub;
    k := FirstFree(s.names.Keys, p, NextOf(s.derived, parent, sub));
    id := Candidate(p, k);
    CandidateIsLeast(s.names, p, NextOf(s.derived, parent, sub));
    var r := Called(s, GenerateDerived(parent, sub));
    forall q, t | q != parent || t != sub ensures NextOf(s.derived, q, t) == NextOf(r.derived, q, t) {
    }
  }

  /** Made names: a text that is not registered, as its components; child and parent, the components of the child first.
      Both are counted, and no counter moves. */
  lemma MadeIs(s: Ids, c: Call)
    requires c.Make? || c.MakeDerived?
    ensures var id, r := NewId(s, c), Called(s, c);
            && r.counters == s.counters && r.derived == s.derived
            && (id.None? ==> r.names == s.names)
            && (id.Some? ==> Taken(r.names, Print(id.value)) == Taken(s.names, Print(id.value)) + 1)
            && (forall w | id.None? || w != Print(id.value) :: Taken(r.names, w) == Taken(s.names, w))
            && (c.MakeDerived? && id.Some? ==> |id.value| == |c.child| + |c.parent| && id.value[..|c.child|] == c.child
                                               && id.value[|c.child|..] == c.parent)
            && (c.Make? ==> (id.Some? <==> c.name !in s.names && Parsed(c.name) != []))
            && (c.Make? && id.Some? && Normal(c.name) ==> Print(id.value) == c.name)
  {
    if c.Make? && Normal(c.name) {
      PrintsBackExactly(c.name);
    }
  }

  /** Freeing forgets one name, however often it is registered, and the counters beneath its parent. */
  lemma FreedIs(s: Ids, id: Id)
    requires id != []
    ensures var r := Called(s, Free(id));
            && r.counters == s.counters && Print(id) !in r.names
            && (forall w | w != Print(id) :: w in r.names <==> w in s.names)
            && (forall w | w in r.names :: r.names[w] == s.names[w])
            && forall q, t :: NextOf(r.derived, q, t) == if q == id[1..] then 0 else NextOf(s.derived, q, t)
  {
  }
}
