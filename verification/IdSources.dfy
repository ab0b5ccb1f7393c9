/** The default id source: one counter per prefix. Within one source no id repeats. */
module IdSources {
  import opened HashChain
  import opened Ledgers
  import opened DistinctIds

  /** How often a prefix was asked for in the first n requests. */
  function Asked(prefixes: nat -> string, n: nat, prefix: string): nat {
    if n == 0 then 0 else Asked(prefixes, n - 1, prefix) + if prefixes(n - 1) == prefix then 1 else 0
  }

  /** The id handed out for request k. */
  function IdFor(prefixes: nat -> string, k: nat): string {
    prefixes(k) + Decimal(Asked(prefixes, k + 1, prefixes(k)))
  }

  class IdSource {
    var counters: map<string, nat>

    constructor ()
      ensures counters == map[]
    {
      counters := map[];
    }

    function Count(prefix: string): nat
      reads this
    {
      if prefix in counters then counters[prefix] else 0
    }

    /** The counters hold what was asked of this source in its first n requests. */
    ghost predicate Served(prefixes: nat -> string, n: nat)
      reads this
    {
      forall p :: Count(p) == Asked(prefixes, n, p)
    }

    method Next(prefix: string, ghost prefixes: nat -> string, ghost n: nat) returns (id: string)
      requires Served(prefixes, n) && prefixes(n) == prefix
      modifies this
      ensures Served(prefixes, n + 1) && id == IdFor(prefixes, n)
    {
      counters := counters[prefix := Count(prefix) + 1];
      id := prefix + Decimal(counters[prefix]);
      forall p ensures Count(p) == Asked(prefixes, n + 1, p) {
        assert old(Count(p)) == Asked(prefixes, n, p);
      }
    }
  }

  predicate IsDigit(c: char) { '0' <= c <= '9' }

  ghost predicate DigitFree(s: string) { forall i :: 0 <= i < |s| ==> !IsDigit(s[i]) }

  lemma {:induction false} DecimalIsDigits(n: nat)
    ensures Decimal(n) != "" && forall i :: 0 <= i < |Decimal(n)| ==> IsDigit(Decimal(n)[i])
  {
    if n >= 10 { DecimalIsDigits(n / 10); }
  }

  lemma {:induction false} AskedGrows(prefixes: nat -> string, i: nat, j: nat, prefix: string)
    requires i <= j
    ensures Asked(prefixes, i, prefix) <= Asked(prefixes, j, prefix)
  {
    if i < j { AskedGrows(prefixes, i, j - 1, prefix); }
  }

  lemma OneMoreAsked(prefixes: nat -> string, n: nat, prefix: string)
    requires n > 0
    ensures |set i: nat | i < n && prefixes(i) == prefix|
            == |set i: nat | i < n - 1 && prefixes(i) == prefix| + if prefixes(n - 1) == prefix then 1 else 0
  {
    var asked := set i: nat | i < n && prefixes(i) == prefix;
    var before := set i: nat | i < n - 1 && prefixes(i) == prefix;
    if prefixes(n - 1) == prefix {
      assert asked == before + {n - 1};
    } else {
      assert asked == before;
    }
  }

  /** How many of the first n requests were for the prefix. */
  lemma {:induction false} AskedCounts(prefixes: nat -> string, n: nat, prefix: string)
    ensures Asked(prefixes, n, prefix) == |set i: nat | i < n && prefixes(i) == prefix|
  {
    if n > 0 {
      AskedCounts(prefixes, n - 1, prefix);
      OneMoreAsked(prefixes, n, prefix);
    } else {
      assert (set i: nat | i < n && prefixes(i) == prefix) == {};
    }
  }

  /** The k-th id is its prefix and the number, in decimal, of requests for that prefix so far, this one included. */
  lemma IdCounts(prefixes: nat -> string, k: nat)
    ensures IdFor(prefixes, k) == prefixes(k) + Decimal(|set i: nat | i <= k && prefixes(i) == prefixes(k)|)
  {
    AskedCounts(prefixes, k + 1, prefixes(k));
    assert (set i: nat | i < k + 1 && prefixes(i) == prefixes(k)) == set i: nat | i <= k && prefixes(i) == prefixes(k);
  }

  lemma FirstDigit(p: string, d: string)
    requires DigitFree(p) && d != "" && IsDigit(d[0])
    ensures IsDigit((p + d)[|p|]) && forall k :: 0 <= k < |p| ==> !IsDigit((p + d)[k])
  {
  }

  /** A digit-free prefix ends where the number begins. */
  lemma PrefixEnds(p: string, m: nat, q: string, n: nat)
    requires DigitFree(p) && DigitFree(q) && p + Decimal(m) == q + Decimal(n)
    ensures p == q && m == n
  {
    DecimalIsDigits(m);
    DecimalIsDigits(n);
    var s, t := p + Decimal(m), q + Decimal(n);
    FirstDigit(p, Decimal(m));
    FirstDigit(q, Decimal(n));
    assert s[..|p|] == p && t[..|q|] == q;
    assert s[|p|..] == Decimal(m) && t[|q|..] == Decimal(n);
    DecimalInjective(m, n);
  }

  lemma IdsDiffer(prefixes: nat -> string, i: nat, j: nat)
    requires i < j && DigitFree(prefixes(i)) && DigitFree(prefixes(j))
    ensures IdFor(prefixes, i) != IdFor(prefixes, j)
  {
    if IdFor(prefixes, i) == IdFor(prefixes, j) {
      PrefixEnds(prefixes(i), Asked(prefixes, i + 1, prefixes(i)), prefixes(j), Asked(prefixes, j + 1, prefixes(j)));
      AskedGrows(prefixes, i + 1, j, prefixes(j));
    }
  }

  /** A host fed by one source, with prefixes such as "L", "TX", "B" and "EV", never repeats an id. */
  lemma OneSourceIsUnique(host: Host, prefixes: nat -> string)
    requires forall k: nat :: DigitFree(prefixes(k)) && host.ids(k) == IdFor(prefixes, k)
    ensures UniqueIds(host)
  {
    forall i: nat, j: nat | i < j ensures host.ids(i) != host.ids(j) {
      assert DigitFree(prefixes(i)) && DigitFree(prefixes(j));
      IdsDiffer(prefixes, i, j);
    }
  }
}
