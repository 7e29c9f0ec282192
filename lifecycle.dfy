/**
  The life of one owning document under any sequence of virtual assignments
  and loader calls: the cache slot is never cleared, the identity invariant
  holds as long as storage answers what it is asked, and at most one lookup
  ever finds the related document.
*/
module Lifecycle {
  import opened Wrappers
  import opened ReferenceLoader

  /** One call on the owning document: a virtual assignment or a loader call. */
  datatype Call = Assign(value: Value) | Fetch(findOne: Option<ObjectId> -> LookupResult)

  datatype Trace = Trace(after: Slots, lookups: seq<Lookup>)

  /** The slots after one call, and the lookups it issued. */
  function Apply(b: Binding, s: Slots, call: Call): Trace {
    match call
    case Assign(v) => Trace(SetStep(b, s, v).after, [])
    case Fetch(findOne) =>
      var o := LoadStep(b, s, findOne);
      Trace(o.after, o.issued)
  }

  /** The slots after a sequence of calls, and every lookup issued, in order. */
  function Run(b: Binding, s: Slots, calls: seq<Call>): Trace
    decreases |calls|
  {
    if calls == [] then Trace(s, [])
    else
      var first := Apply(b, s, calls[0]);
      var rest := Run(b, first.after, calls[1..]);
      Trace(rest.after, first.lookups + rest.lookups)
  }

  /** Every loader call in `calls` is answered by storage that honours its criteria. */
  ghost predicate HonestStorage(calls: seq<Call>) {
    forall i :: 0 <= i < |calls| && calls[i].Fetch? ==> HonoursCriteria(calls[i].findOne)
  }

  /** Once the cache slot is filled it stays filled, and no lookup is issued again. */
  lemma {:induction false} CachedStaysCached(b: Binding, s: Slots, calls: seq<Call>)
    requires s.cache.Some?
    ensures Run(b, s, calls).after.cache.Some?
    ensures Run(b, s, calls).lookups == []
    decreases |calls|
  {
    if calls != [] {
      CachedStaysCached(b, Apply(b, s, calls[0]).after, calls[1..]);
    }
  }

  /** The identity invariant survives any calls, given honest storage. */
  lemma {:induction false} ConsistentThroughout(b: Binding, s: Slots, calls: seq<Call>)
    requires Consistent(s) && HonestStorage(calls)
    ensures Consistent(Run(b, s, calls).after)
    decreases |calls|
  {
    if calls != [] {
      assert HonestStorage(calls[1..]) by {
        forall i | 0 <= i < |calls[1..]| && calls[1..][i].Fetch?
          ensures HonoursCriteria(calls[1..][i].findOne)
        {
          assert calls[1..][i] == calls[i + 1];
        }
      }
      ConsistentThroughout(b, Apply(b, s, calls[0]).after, calls[1..]);
    }
  }

  /**
    Every lookup asks for the id the document started with: the id only
    changes through an assignment, and that fills the cache slot.
  */
  lemma {:induction false} LookupsUseInitialId(b: Binding, s: Slots, calls: seq<Call>)
    ensures forall l :: l in Run(b, s, calls).lookups ==> l.criteria == s.id
    decreases |calls|
  {
    if calls != [] {
      var first := Apply(b, s, calls[0]);
      if first.after.cache.Some? {
        CachedStaysCached(b, first.after, calls[1..]);
      } else {
        assert first.after.id == s.id;
        LookupsUseInitialId(b, first.after, calls[1..]);
      }
    }
  }

  /** No lookup but the last found a document. */
  predicate MatchOnlyLast(lookups: seq<Lookup>) {
    forall i :: 0 <= i < |lookups| - 1 ==> !lookups[i].answer.Match?
  }

  /**
    Only the last lookup can find the document: a match is cached, and from
    then on every loader call takes the fast path. So a document is fetched
    from storage at most once, while failed lookups are simply retried.
  */
  lemma {:induction false} OnlyLastLookupMatches(b: Binding, s: Slots, calls: seq<Call>)
    ensures MatchOnlyLast(Run(b, s, calls).lookups)
    decreases |calls|
  {
    if calls != [] {
      var first := Apply(b, s, calls[0]);
      var rest := Run(b, first.after, calls[1..]);
      if first.after.cache.Some? {
        CachedStaysCached(b, first.after, calls[1..]);
        assert Run(b, s, calls).lookups == first.lookups;
      } else {
        OnlyLastLookupMatches(b, first.after, calls[1..]);
        var ls := Run(b, s, calls).lookups;
        assert ls == first.lookups + rest.lookups;
        forall i | 0 <= i < |ls| - 1
          ensures !ls[i].answer.Match?
        {
          if i < |first.lookups| {
            // a lookup that leaves the cache slot empty did not find the document
            assert ls[i] == LoadStep(b, s, calls[0].findOne).issued[0];
          } else {
            assert ls[i] == rest.lookups[i - |first.lookups|];
          }
        }
      }
    }
  }

  /** The number of lookups that found a document. */
  function Matches(lookups: seq<Lookup>): nat {
    if lookups == [] then 0
    else (if lookups[0].answer.Match? then 1 else 0) + Matches(lookups[1..])
  }

  lemma {:induction false} MatchOnlyLastCount(lookups: seq<Lookup>)
    requires MatchOnlyLast(lookups)
    ensures Matches(lookups) <= 1
  {
    if |lookups| > 1 {
      assert !lookups[0].answer.Match?;
      assert MatchOnlyLast(lookups[1..]) by {
        forall i | 0 <= i < |lookups[1..]| - 1
          ensures !lookups[1..][i].answer.Match?
        {
          assert lookups[1..][i] == lookups[i + 1];
        }
      }
      MatchOnlyLastCount(lookups[1..]);
    }
  }

  /** The related document is fetched from storage at most once per owning document. */
  lemma FetchedAtMostOnce(b: Binding, s: Slots, calls: seq<Call>)
    ensures Matches(Run(b, s, calls).lookups) <= 1
    ensures s.cache.Some? ==> Matches(Run(b, s, calls).lookups) == 0
  {
    OnlyLastLookupMatches(b, s, calls);
    MatchOnlyLastCount(Run(b, s, calls).lookups);
    if s.cache.Some? {
      CachedStaysCached(b, s, calls);
    }
  }
}
