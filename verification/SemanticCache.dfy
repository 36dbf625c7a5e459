// The vector store of src/cache/semantic.rs. The embedding backend is a function from
// text to an optional vector, and `now` the clock reading of a call.

module SemanticCache {
  import opened Basics
  import opened Similarity

  datatype Signature = Signature(
    model: string, systemFingerprint: Option<string>, toolsHash: Option<string>, responseFormat: Option<string>)

  datatype Entry = Entry(prompt: string, signature: Signature, embedding: Vector, response: string, createdAt: real)

  datatype Settings = Settings(enabled: bool, threshold: real, maxEntries: nat, ttl: real)

  datatype LookupOutcome = Hit(response: string, similarity: real) | Miss | Disabled

  // Removing the oldest of no entries panics.
  datatype InsertOutcome = Stored | Skipped | Panicked

  predicate Expired(ttl: real, e: Entry, now: real) {
    Max(now - e.createdAt, 0.0) > ttl
  }

  // What a lookup is about.
  datatype Query = Query(vector: Vector, signature: Signature, now: real)

  function Score(sqrt: real -> real, q: Query, e: Entry): real {
    Cosine(sqrt, q.vector, e.embedding)
  }

  // It matches, is at most as old as the time to live, and is similar enough.
  predicate Eligible(s: Settings, sqrt: real -> real, q: Query, e: Entry) {
    && e.signature == q.signature
    && 0.0 <= s.ttl && q.now - e.createdAt <= s.ttl
    && Score(sqrt, q, e) >= s.threshold
  }

  // The earliest of the most similar eligible entries.
  predicate IsBest(s: Settings, sqrt: real -> real, q: Query, entries: seq<Entry>, i: nat) {
    && i < |entries| && Eligible(s, sqrt, q, entries[i])
    && forall j :: 0 <= j < |entries| && Eligible(s, sqrt, q, entries[j]) ==>
         if j < i then Score(sqrt, q, entries[j]) < Score(sqrt, q, entries[i])
         else Score(sqrt, q, entries[j]) <= Score(sqrt, q, entries[i])
  }

  // A hit is the best entry; a miss means that there is no eligible one.
  ghost predicate IsAnswer(s: Settings, sqrt: real -> real, q: Query, entries: seq<Entry>, outcome: LookupOutcome) {
    match outcome
    case Hit(response, similarity) =>
      exists i: nat :: IsBest(s, sqrt, q, entries, i)
                       && response == entries[i].response && similarity == Score(sqrt, q, entries[i])
    case _ => forall j :: 0 <= j < |entries| ==> !Eligible(s, sqrt, q, entries[j])
  }

  function AfterInsert(maxEntries: nat, entries: seq<Entry>, e: Entry): seq<Entry> {
    (if |entries| >= maxEntries && entries != [] then entries[1..] else entries) + [e]
  }

  class SemanticCache {
    const settings: Settings
    const embed: string -> Option<Vector>
    const sqrt: real -> real
    var entries: seq<Entry>
    ghost var history: seq<Op>  // the inserts that were stored, and the clears
    ghost var latest: real      // when the last of them was stored

    // The store is what its history makes it, and creation times follow the history.
    ghost predicate Valid()
      reads this
    {
      && entries == Store(settings.maxEntries, history)
      && PutsInOrder(history) && PutsBy(history, latest)
    }

    constructor (settings: Settings, embed: string -> Option<Vector>, sqrt: real -> real)
      ensures this.settings == settings && this.embed == embed && this.sqrt == sqrt
      ensures Valid() && entries == [] && history == []
    {
      this.settings, this.embed, this.sqrt := settings, embed, sqrt;
      entries, history, latest := [], [], 0.0;
    }

    method Lookup(prompt: string, signature: Signature, now: real) returns (outcome: LookupOutcome)
      ensures outcome == Disabled <==> !settings.enabled
      ensures settings.enabled && embed(prompt).None? ==> outcome == Miss
      ensures settings.enabled && embed(prompt).Some? ==>
                IsAnswer(settings, sqrt, Query(embed(prompt).value, signature, now), entries, outcome)
    {
      if !settings.enabled {
        return Disabled;
      }
      var embedding := embed(prompt);
      if embedding.None? {
        return Miss;
      }
      var q := Query(embedding.value, signature, now);
      var bestMatch: Option<(nat, real)> := None;
      for k := 0 to |entries|
        invariant bestMatch.None? ==> forall j :: 0 <= j < k ==> !Eligible(settings, sqrt, q, entries[j])
        invariant bestMatch.Some? ==>
                    && bestMatch.value.0 < k
                    && bestMatch.value.1 == Score(sqrt, q, entries[bestMatch.value.0])
                    && IsBest(settings, sqrt, q, entries[..k], bestMatch.value.0)
      {
        var e := entries[k];
        assert entries[..k + 1] == entries[..k] + [e];
        if e.signature == signature && !Expired(settings.ttl, e, now) {
          var sim := CosineSimilarity(sqrt, q.vector, e.embedding);
          if sim >= settings.threshold && (bestMatch.None? || sim > bestMatch.value.1) {
            bestMatch := Some((k, sim));
          }
        }
      }
      assert entries[..|entries|] == entries;
      match bestMatch {
        case Some(m) => outcome := Hit(entries[m.0].response, m.1);
        case None => outcome := Miss;
      }
    }

    method Insert(prompt: string, signature: Signature, response: string, now: real) returns (outcome: InsertOutcome)
      requires Valid() && (history != [] ==> latest <= now)  // the clock does not run backwards
      modifies this`entries, this`history, this`latest
      ensures Valid()
      ensures history == old(history) + StoredOp(outcome, prompt, signature, embed(prompt), response, now)
      ensures settings.maxEntries >= 1 ==> entries == LastOf(InsertsSinceClear(history), settings.maxEntries)
      ensures latest == if outcome == Stored then now else old(latest)
      ensures outcome == Skipped <==> !settings.enabled || embed(prompt).None?
      ensures outcome == Panicked <==>
                settings.enabled && embed(prompt).Some? && settings.maxEntries == 0 && old(entries) == []
      ensures entries ==
              if outcome == Stored then
                var e := Entry(prompt, signature, embed(prompt).value, response, now);
                AfterInsert(settings.maxEntries, old(entries), e)
              else old(entries)
    {
      Recent(settings.maxEntries, history);
      if !settings.enabled {
        return Skipped;
      }
      var embedding := embed(prompt);
      if embedding.None? {
        return Skipped;
      }
      if |entries| >= settings.maxEntries {
        if entries == [] {
          return Panicked;
        }
        entries := entries[1..];
      }
      var entry := Entry(prompt, signature, embedding.value, response, now);
      entries := entries + [entry];
      PutNext(settings.maxEntries, history, latest, entry);
      history, latest := history + [Put(entry)], now;
      Recent(settings.maxEntries, history);
      outcome := Stored;
    }

    method Clear()
      requires Valid()
      modifies this`entries, this`history
      ensures Valid() && entries == [] && history == old(history) + [Op.Clear]
    {
      entries := [];
      ClearNext(settings.maxEntries, history, latest);
      history := history + [Op.Clear];
    }
  }

  // A hit names one entry only.
  lemma BestIsUnique(s: Settings, sqrt: real -> real, q: Query, entries: seq<Entry>, i: nat, j: nat)
    requires IsBest(s, sqrt, q, entries, i) && IsBest(s, sqrt, q, entries, j)
    ensures i == j
  {
    hide Eligible, Score;
    assert Eligible(s, sqrt, q, entries[i]) && Eligible(s, sqrt, q, entries[j]);
  }

  // ---- The store against its history ------------------------------------------------------

  // A completed change of the store.
  datatype Op = Put(entry: Entry) | Clear

  function Store(maxEntries: nat, ops: seq<Op>): seq<Entry> {
    if ops == [] then []
    else
      match ops[|ops| - 1]
      case Put(e) => AfterInsert(maxEntries, Store(maxEntries, ops[..|ops| - 1]), e)
      case Clear => []
  }

  function InsertsSinceClear(ops: seq<Op>): seq<Entry> {
    if ops == [] then []
    else
      match ops[|ops| - 1]
      case Put(e) => InsertsSinceClear(ops[..|ops| - 1]) + [e]
      case Clear => []
  }

  // What a call adds to the history.
  function StoredOp(outcome: InsertOutcome, prompt: string, signature: Signature, embedding: Option<Vector>,
      response: string, now: real): seq<Op>
  {
    if outcome == Stored && embedding.Some? then [Put(Entry(prompt, signature, embedding.value, response, now))]
    else []
  }

  predicate PutsBy(ops: seq<Op>, latest: real) {
    forall i :: 0 <= i < |ops| && ops[i].Put? ==> ops[i].entry.createdAt <= latest
  }

  lemma PutNext(maxEntries: nat, ops: seq<Op>, latest: real, e: Entry)
    requires PutsInOrder(ops) && PutsBy(ops, latest) && (ops != [] ==> latest <= e.createdAt)
    ensures Store(maxEntries, ops + [Put(e)]) == AfterInsert(maxEntries, Store(maxEntries, ops), e)
    ensures PutsInOrder(ops + [Put(e)]) && PutsBy(ops + [Put(e)], e.createdAt)
  {
    assert (ops + [Put(e)])[..|ops|] == ops;
  }

  lemma ClearNext(maxEntries: nat, ops: seq<Op>, latest: real)
    requires PutsInOrder(ops) && PutsBy(ops, latest)
    ensures Store(maxEntries, ops + [Clear]) == []
    ensures PutsInOrder(ops + [Clear]) && PutsBy(ops + [Clear], latest)
  {
  }

  lemma Recent(maxEntries: nat, ops: seq<Op>)
    ensures maxEntries >= 1 ==> Store(maxEntries, ops) == LastOf(InsertsSinceClear(ops), maxEntries)
  {
    if maxEntries >= 1 {
      StoreIsRecentHistory(maxEntries, ops);
    }
  }

  function LastOf<T>(s: seq<T>, n: nat): seq<T> {
    if |s| <= n then s else s[|s| - n..]
  }

  // With room for at least one entry the store is always the most recent inserts.
  lemma {:induction false} StoreIsRecentHistory(maxEntries: nat, ops: seq<Op>)
    requires maxEntries >= 1
    ensures Store(maxEntries, ops) == LastOf(InsertsSinceClear(ops), maxEntries)
  {
    if ops != [] {
      StoreIsRecentHistory(maxEntries, ops[..|ops| - 1]);
    }
  }

  predicate InOrder(entries: seq<Entry>) {
    forall i, j :: 0 <= i < j < |entries| ==> entries[i].createdAt <= entries[j].createdAt
  }

  predicate PutsInOrder(ops: seq<Op>) {
    forall i, j :: 0 <= i < j < |ops| && ops[i].Put? && ops[j].Put? ==>
                     ops[i].entry.createdAt <= ops[j].entry.createdAt
  }

  // Creation times are taken under the write lock, so entries are in order of age and
  // the expired ones always form a prefix.
  lemma ExpiredFormPrefix(maxEntries: nat, ops: seq<Op>, ttl: real, now: real, i: nat, j: nat)
    requires PutsInOrder(ops) && i < j < |Store(maxEntries, ops)|
    requires Expired(ttl, Store(maxEntries, ops)[j], now)
    ensures Expired(ttl, Store(maxEntries, ops)[i], now)
  {
    StoreInOrder(maxEntries, ops);
  }

  lemma {:induction false} StoreInOrder(maxEntries: nat, ops: seq<Op>)
    requires PutsInOrder(ops)
    ensures InOrder(Store(maxEntries, ops))
    ensures forall e :: e in Store(maxEntries, ops) ==> Put(e) in ops
  {
    if ops != [] {
      var before := ops[..|ops| - 1];
      StoreInOrder(maxEntries, before);
      assert forall op :: op in before ==> op in ops;
      forall e | e in Store(maxEntries, before) && ops[|ops| - 1].Put?
        ensures e.createdAt <= ops[|ops| - 1].entry.createdAt
      {
        var k :| 0 <= k < |before| && before[k] == Put(e);
        assert ops[k] == Put(e);
      }
    }
  }
}
