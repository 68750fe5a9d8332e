/** The single-flight cache as the table the evaluators read: a lookup that goes through it, however it
    interleaves with other workers, does what the evaluator's hop lookup promises. */
module SharedQuotes {
  import opened Routing
  import opened QuoteCache
  import QuoteDag

  /** The finished entries, as a table of hop outcomes. */
  function ReadyTable(entries: map<Key, Slot>): (t: QuoteDag.QuoteTable)
    ensures forall k: Key :: (k.hop, k.amount) in t <==> k in entries && entries[k].Ready?
    ensures forall k: Key :: k in entries && entries[k].Ready? ==> t[(k.hop, k.amount)] == entries[k].outcome
  {
    map k | k in entries && entries[k].Ready? :: (k.hop, k.amount) := entries[k].outcome
  }

  ghost predicate Agrees(truth: Truths, q: Quoter) {
    forall k: Key :: At(truth, k) == q(k.hop, k.amount)
  }

  /** The finished entries of a coherent cache are true outcomes. */
  lemma ReadyTableTrue(s: State, q: Quoter, scope: set<Pool>)
    requires Inv(s) && Agrees(s.truth, q)
    ensures QuoteDag.CacheTrue(q, ReadyTable(s.entries), scope)
    ensures forall k :: k in ReadyTable(s.entries) ==> ReadyTable(s.entries)[k] == q(k.0, k.1)
  {
    forall k | k in ReadyTable(s.entries) ensures ReadyTable(s.entries)[k] == q(k.0, k.1) {
      assert k == (Key(k.0, k.1).hop, Key(k.0, k.1).amount);
    }
  }

  /** Between invalidations the truth stands and finished entries stay. */
  lemma StepGrows(s: State, e: Event, q: Quoter)
    requires Inv(s) && Enabled(s, e) && !e.Invalidate? && Agrees(s.truth, q)
    ensures Apply(s, e).truth == s.truth
    ensures QuoteDag.CacheGrown(q, ReadyTable(s.entries), ReadyTable(Apply(s, e).entries))
  {
    hide Inv, Enabled, Apply, ReadyTable, Agrees;
    var t := Apply(s, e);
    StepKeepsInv(s, e);
    StepKeepsReady(s, e);
    assert Agrees(t.truth, q);
    ReadyTableTrue(t, q, {});
    forall k | k in ReadyTable(s.entries) ensures k in ReadyTable(t.entries) && ReadyTable(t.entries)[k] == ReadyTable(s.entries)[k] {
      var key := Key(k.0, k.1);
      assert k == (key.hop, key.amount);
    }
  }

  lemma StepKeepsReady(s: State, e: Event)
    requires Inv(s) && Enabled(s, e) && !e.Invalidate?
    ensures Apply(s, e).truth == s.truth
    ensures forall k :: k in s.entries && s.entries[k].Ready? ==> k in Apply(s, e).entries && Apply(s, e).entries[k] == s.entries[k]
  {
    hide Inv, AddKey, RemoveKey, WakeAll, Count;
    if e.Panic? { OwnedInFlight(s, e.w); }
  }

  lemma OwnedInFlight(s: State, w: WorkerId)
    requires Inv(s) && w in s.workers && s.workers[w].Executing?
    ensures s.workers[w].key in s.entries && s.entries[s.workers[w].key].InFlight?
  {
  }

  ghost predicate NoInvalidation(events: seq<Event>) {
    forall i :: 0 <= i < |events| ==> !events[i].Invalidate?
  }

  lemma {:induction false} RunGrows(run: seq<State>, events: seq<Event>, q: Quoter, n: nat)
    requires Steps(run, events) && Inv(run[0]) && NoInvalidation(events) && Agrees(run[0].truth, q) && n <= |events|
    ensures Inv(run[n]) && run[n].truth == run[0].truth
    ensures QuoteDag.CacheGrown(q, ReadyTable(run[0].entries), ReadyTable(run[n].entries))
  {
    hide Inv, Enabled, Apply, ReadyTable, Agrees, QuoteDag.CacheGrown;
    StepsStayCoherent(run, events, n);
    if n == 0 {
      QuoteDag.GrownRefl(q, ReadyTable(run[0].entries));
    } else {
      RunGrows(run, events, q, n - 1);
      StepGrows(run[n - 1], events[n - 1], q);
      QuoteDag.GrownTrans(q, ReadyTable(run[0].entries), ReadyTable(run[n - 1].entries), ReadyTable(run[n].entries));
    }
  }

  /** A hop quoted through the shared cache while any number of workers use it: the outcome is the
      hop's own, and the table only gained true entries. */
  lemma SharedLookupMeetsQuoteHop(run: seq<State>, events: seq<Event>, q: Quoter, w: WorkerId, scope: set<Pool>)
    requires Steps(run, events) && Inv(run[0]) && NoInvalidation(events) && Agrees(run[0].truth, q)
    requires events != [] && (events[|events| - 1] == Lookup(w) || events[|events| - 1] == Publish(w))
    requires w in run[|events|].workers && run[|events|].workers[w].Returned?
    ensures var s := run[|events|];
            var k := s.workers[w].key;
            && s.workers[w].outcome == q(k.hop, k.amount) && (k.hop, k.amount) in ReadyTable(s.entries)
            && QuoteDag.CacheTrue(q, ReadyTable(s.entries), scope)
            && QuoteDag.CacheGrown(q, ReadyTable(run[0].entries), ReadyTable(s.entries))
  {
    hide Inv, Enabled, Apply, Agrees, QuoteDag.CacheGrown, QuoteDag.CacheTrue;
    var n := |events|;
    RunGrows(run, events, q, n);
    RunGrows(run, events, q, n - 1);
    ReadyTableTrue(run[n], q, scope);
    ReturnsReady(run[n - 1], events[n - 1], w);
    TruthAgrees(run[0].truth, q, run[n].workers[w].key);
  }

  lemma TruthAgrees(truth: Truths, q: Quoter, k: Key)
    requires Agrees(truth, q)
    ensures At(truth, k) == q(k.hop, k.amount)
  {
  }

  /** What a lookup hands out is then a finished entry. */
  lemma ReturnsReady(s: State, e: Event, w: WorkerId)
    requires Inv(s) && Enabled(s, e) && (e == Lookup(w) || e == Publish(w)) && Apply(s, e).workers[w].Returned?
    ensures var t := Apply(s, e);
            var k := t.workers[w].key;
            t.workers[w].outcome == At(s.truth, k) && k in t.entries && t.entries[k].Ready?
  {
  }
}
