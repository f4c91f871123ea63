/** Replacing the declared set: the outcome depends on the target set alone, in whatever order it is presented. */
module TargetProofs {
  import opened Prelude
  import opened AssignmentProofs
  import opened Lifecycle
  import opened Records
  import opened Sorting
  import opened Groups
  import opened GroupProofs

  // ----- Specs -----

  lemma SpecKeysDistinct(specs: seq<MemberSpec>)
    requires Listed(SpecIds(specs))
    ensures KeysDistinct(SpecKey, specs)
  {
    forall i, j | 0 <= i < j < |specs| ensures SpecKey(specs[i]) != SpecKey(specs[j]) {
      assert SpecIds(specs)[i] != SpecIds(specs)[j];
    }
  }

  lemma SpecAt(specs: seq<MemberSpec>, k: nat)
    requires Listed(SpecIds(specs)) && k < |specs|
    ensures IndexOf(SpecIds(specs), specs[k].member) == k
  {
    assert SpecIds(specs)[k] == specs[k].member;
    ListedIndex(SpecIds(specs), k);
  }

  /** Sorting specs yields a target set in canonical order with the same specs. */
  lemma SortedTarget(specs: seq<MemberSpec>)
    requires Listed(SpecIds(specs))
    ensures TargetOk(SortBy(SpecKey, specs)) && |SortBy(SpecKey, specs)| == |specs|
  {
    var sorted := SortBy(SpecKey, specs);
    SpecKeysDistinct(specs);
    SortAscending(SpecKey, specs);
    SortMembers(SpecKey, specs);
    MultisetMembers(sorted, specs);
    forall i, j | 0 <= i < j < |sorted| ensures SpecIds(sorted)[i] != SpecIds(sorted)[j] {
      assert Less(SpecKey(sorted[i]), SpecKey(sorted[j]));
      SortedSpec(specs, i);
      SortedSpec(specs, j);
      var a :| 0 <= a < |specs| && specs[a] == sorted[i];
      var b :| 0 <= b < |specs| && specs[b] == sorted[j];
      assert SpecIds(specs)[a] == specs[a].member && SpecIds(specs)[b] == specs[b].member;
    }
    forall i | 0 <= i < |sorted| ensures SpecIds(sorted)[i] != NIL {
      SortedSpec(specs, i);
      var a :| 0 <= a < |specs| && specs[a] == sorted[i];
      assert SpecIds(specs)[a] == specs[a].member;
    }
  }

  lemma SortedSpec(specs: seq<MemberSpec>, i: nat)
    requires i < |SortBy(SpecKey, specs)|
    ensures SortBy(SpecKey, specs)[i] in specs
  {
    SortElements(SpecKey, specs, SortBy(SpecKey, specs)[i]);
  }

  // ----- Entries before sorting -----

  /** The entries of a retargeted group, not yet in order. */
  function RawTarget(ms: seq<MemberEntry>, specs: seq<MemberSpec>): seq<MemberEntry> {
    RetargetAll(ms, specs) + Newcomers(ms, specs)
  }

  lemma {:induction false} NewcomerElements(ms: seq<MemberEntry>, specs: seq<MemberSpec>, e: MemberEntry)
    ensures e in Newcomers(ms, specs) <==>
            exists k :: 0 <= k < |specs| && e == FreshEntry(specs[k]) && specs[k].member !in MemberIds(ms)
  {
    if specs != [] {
      var init, last := specs[..|specs| - 1], specs[|specs| - 1];
      NewcomerElements(ms, init, e);
      IndexOfFirst(MemberIds(ms), last.member);
      if e in Newcomers(ms, init) {
        var k :| 0 <= k < |init| && e == FreshEntry(init[k]) && init[k].member !in MemberIds(ms);
        assert specs[k] == init[k];
      }
      if exists k :: 0 <= k < |specs| && e == FreshEntry(specs[k]) && specs[k].member !in MemberIds(ms) {
        var k :| 0 <= k < |specs| && e == FreshEntry(specs[k]) && specs[k].member !in MemberIds(ms);
        if k < |init| { assert init[k] == specs[k]; }
      }
    }
  }

  lemma {:induction false} NewcomersListed(ms: seq<MemberEntry>, specs: seq<MemberSpec>)
    requires Listed(SpecIds(specs))
    ensures Listed(MemberIds(Newcomers(ms, specs)))
  {
    if specs != [] {
      var n := |specs| - 1;
      var init := specs[..n];
      assert SpecIds(init) == SpecIds(specs)[..n];
      NewcomersListed(ms, init);
      var news := Newcomers(ms, init);
      forall i | 0 <= i < |news| ensures MemberIds(news)[i] != specs[n].member {
        NewcomerElements(ms, init, news[i]);
        var k :| 0 <= k < |init| && news[i] == FreshEntry(init[k]);
        assert SpecIds(specs)[k] != SpecIds(specs)[n];
      }
      assert SpecIds(specs)[n] == specs[n].member;
      assert MemberIds(news + [FreshEntry(specs[n])]) == MemberIds(news) + [specs[n].member];
      assert news + [] == news;
      assert Listed(MemberIds(news) + [specs[n].member]);
    }
  }

  lemma RawListed(ms: seq<MemberEntry>, specs: seq<MemberSpec>)
    requires Listed(MemberIds(ms)) && Listed(SpecIds(specs))
    ensures Listed(MemberIds(RawTarget(ms, specs)))
  {
    var kept, news := RetargetAll(ms, specs), Newcomers(ms, specs);
    NewcomersListed(ms, specs);
    assert MemberIds(kept) == MemberIds(ms);
    assert MemberIds(kept + news) == MemberIds(kept) + MemberIds(news);
    forall j | 0 <= j < |news| ensures MemberIds(news)[j] !in MemberIds(ms) {
      NewcomerElements(ms, specs, news[j]);
    }
  }

  /** The declared entries after retargeting are the fresh entries of the target set. */
  lemma RawDeclared(ms: seq<MemberEntry>, specs: seq<MemberSpec>, e: MemberEntry)
    requires Listed(MemberIds(ms)) && Listed(SpecIds(specs))
    ensures e in RawTarget(ms, specs) && e.record.declared <==> exists k :: 0 <= k < |specs| && e == FreshEntry(specs[k])
  {
    var kept := RetargetAll(ms, specs);
    NewcomerElements(ms, specs, e);
    if exists k :: 0 <= k < |specs| && e == FreshEntry(specs[k]) {
      var k :| 0 <= k < |specs| && e == FreshEntry(specs[k]);
      if specs[k].member in MemberIds(ms) {
        var i :| 0 <= i < |ms| && MemberIds(ms)[i] == specs[k].member;
        SpecAt(specs, k);
        assert kept[i] == e;
      }
    }
  }

  // ----- Sorting entries -----

  lemma EntryKeysDistinct(raw: seq<MemberEntry>)
    requires Distinct(MemberIds(raw))
    ensures KeysDistinct(EntryKey, raw)
  {
    forall i, j | 0 <= i < j < |raw| ensures EntryKey(raw[i]) != EntryKey(raw[j]) {
      assert MemberIds(raw)[i] != MemberIds(raw)[j];
    }
  }

  lemma SortedEntry(raw: seq<MemberEntry>, i: nat) returns (a: nat)
    requires i < |SortBy(EntryKey, raw)|
    ensures a < |raw| && raw[a] == SortBy(EntryKey, raw)[i]
  {
    SortElements(EntryKey, raw, SortBy(EntryKey, raw)[i]);
    a :| 0 <= a < |raw| && raw[a] == SortBy(EntryKey, raw)[i];
  }

  /** Sorting a list that names each member once gives canonical entries. */
  lemma SortedEntriesOk(raw: seq<MemberEntry>)
    requires Listed(MemberIds(raw))
    ensures EntriesOk(SortBy(EntryKey, raw)) && |SortBy(EntryKey, raw)| == |raw|
  {
    var sorted := SortBy(EntryKey, raw);
    EntryKeysDistinct(raw);
    SortAscending(EntryKey, raw);
    SortMembers(EntryKey, raw);
    MultisetMembers(sorted, raw);
    forall i, j | 0 <= i < j < |sorted| ensures MemberIds(sorted)[i] != MemberIds(sorted)[j] {
      assert Less(EntryKey(sorted[i]), EntryKey(sorted[j]));
      var a := SortedEntry(raw, i);
      var b := SortedEntry(raw, j);
      assert MemberIds(raw)[a] == raw[a].record.member && MemberIds(raw)[b] == raw[b].record.member;
    }
    forall i | 0 <= i < |sorted| ensures MemberIds(sorted)[i] != NIL {
      var a := SortedEntry(raw, i);
      assert MemberIds(raw)[a] == raw[a].record.member;
    }
  }

  // ----- The declared part -----

  function DeclaredEntries(ms: seq<MemberEntry>): seq<MemberEntry> {
    if ms == [] then []
    else DeclaredEntries(ms[..|ms| - 1]) + (if ms[|ms| - 1].record.declared then [ms[|ms| - 1]] else [])
  }

  lemma {:induction false} DeclaredEntryElements(ms: seq<MemberEntry>, e: MemberEntry)
    ensures e in DeclaredEntries(ms) <==> e in ms && e.record.declared
  {
    if ms != [] {
      DeclaredEntryElements(ms[..|ms| - 1], e);
      assert ms == ms[..|ms| - 1] + [ms[|ms| - 1]];
    }
  }

  lemma {:induction false} DeclaredEntriesAscending(ms: seq<MemberEntry>)
    requires Ascending(EntryKey, ms)
    ensures Ascending(EntryKey, DeclaredEntries(ms))
  {
    if ms != [] {
      var n := |ms| - 1;
      assert Ascending(EntryKey, ms[..n]) by {
        assert forall i, j :: 0 <= i < j < n ==> Less(EntryKey(ms[i]), EntryKey(ms[j]));
      }
      DeclaredEntriesAscending(ms[..n]);
      var rest := DeclaredEntries(ms[..n]);
      forall i | 0 <= i < |rest| ensures Less(EntryKey(rest[i]), EntryKey(ms[n])) {
        DeclaredEntryElements(ms[..n], rest[i]);
        var a :| 0 <= a < n && ms[..n][a] == rest[i];
        assert Less(EntryKey(ms[a]), EntryKey(ms[n]));
      }
    }
  }

  lemma {:induction false} DeclaredIdsOfEntries(ms: seq<MemberEntry>)
    ensures DeclaredIds(ms) == MemberIds(DeclaredEntries(ms))
  {
    if ms != [] {
      DeclaredIdsOfEntries(ms[..|ms| - 1]);
      var rest := DeclaredEntries(ms[..|ms| - 1]);
      assert MemberIds(rest + [ms[|ms| - 1]]) == MemberIds(rest) + [ms[|ms| - 1].record.member];
    }
  }

  /** Exactly the target set is declared, in canonical order. */
  lemma TargetEntries(ms: seq<MemberEntry>, specs: seq<MemberSpec>)
    requires EntriesOk(ms) && Listed(SpecIds(specs))
    ensures EntriesOk(ApplyTarget(ms, specs))
    ensures DeclaredEntries(ApplyTarget(ms, specs)) == FreshEntries(SortBy(SpecKey, specs))
  {
    var raw, r, sorted := RawTarget(ms, specs), ApplyTarget(ms, specs), SortBy(SpecKey, specs);
    RawListed(ms, specs);
    SortedEntriesOk(raw);
    DeclaredEntriesAscending(r);
    SortedTarget(specs);
    var target := FreshEntries(sorted);
    forall i, j | 0 <= i < j < |target| ensures Less(EntryKey(target[i]), EntryKey(target[j])) {
      assert Less(SpecKey(sorted[i]), SpecKey(sorted[j]));
    }
    forall e ensures e in DeclaredEntries(r) <==> e in target {
      DeclaredEntryElements(r, e);
      SortElements(EntryKey, raw, e);
      RawDeclared(ms, specs, e);
      FreshElements(specs, e);
    }
    AscendingUnique(EntryKey, DeclaredEntries(r), target);
  }

  lemma FreshElements(specs: seq<MemberSpec>, e: MemberEntry)
    ensures e in FreshEntries(SortBy(SpecKey, specs)) <==> exists k :: 0 <= k < |specs| && e == FreshEntry(specs[k])
  {
    var sorted := SortBy(SpecKey, specs);
    if e in FreshEntries(sorted) {
      var i :| 0 <= i < |sorted| && e == FreshEntry(sorted[i]);
      SortedSpec(specs, i);
    }
    if exists k :: 0 <= k < |specs| && e == FreshEntry(specs[k]) {
      var k :| 0 <= k < |specs| && e == FreshEntry(specs[k]);
      SortElements(SpecKey, specs, specs[k]);
      var i :| 0 <= i < |sorted| && sorted[i] == specs[k];
      assert FreshEntries(sorted)[i] == e;
    }
  }

  // ----- The active part -----

  function EnabledEntryIds(ms: seq<MemberEntry>): seq<Id> {
    if ms == [] then []
    else
      EnabledEntryIds(ms[..|ms| - 1]) +
      (if ms[|ms| - 1].record.enabled then [ms[|ms| - 1].record.member] else [])
  }

  lemma {:induction false} ActiveAreEnabled(ms: seq<MemberEntry>)
    requires forall i :: 0 <= i < |ms| && ms[i].record.declared ==> ms[i].UpstreamCurrent()
    ensures ActiveIds(MapEntries(DeriveEntry, ms)) == EnabledEntryIds(DeclaredEntries(ms))
  {
    if ms != [] {
      var n := |ms| - 1;
      ActiveAreEnabled(ms[..n]);
      assert MapEntries(DeriveEntry, ms)[..n] == MapEntries(DeriveEntry, ms[..n]);
      var rest := DeclaredEntries(ms[..n]);
      if ms[n].record.declared { assert (rest + [ms[n]])[..|rest|] == rest; } else { assert rest + [] == rest; }
      assert MapEntries(DeriveEntry, ms)[n] == DeriveEntry(ms[n]);
    }
  }

  lemma {:induction false} EnabledOfFresh(specs: seq<MemberSpec>)
    ensures EnabledEntryIds(FreshEntries(specs)) == EnabledIds(specs)
  {
    if specs != [] {
      var n := |specs| - 1;
      EnabledOfFresh(specs[..n]);
      assert FreshEntries(specs)[..n] == FreshEntries(specs[..n]);
    }
  }

  lemma IdsOfFresh(specs: seq<MemberSpec>)
    ensures MemberIds(FreshEntries(specs)) == SpecIds(specs)
  {
  }

  /** After retargeting, the declared and the active members are those of the target set in canonical order. */
  lemma TargetFacts(ms: seq<MemberEntry>, specs: seq<MemberSpec>)
    requires EntriesOk(ms) && Listed(SpecIds(specs))
    ensures var r, sorted := ApplyTarget(ms, specs), SortBy(SpecKey, specs);
            && EntriesOk(r) && DeclaredIds(r) == SpecIds(sorted) && |sorted| == |specs|
            && ActiveIds(MapEntries(DeriveEntry, r)) == EnabledIds(sorted)
  {
    var r, sorted := ApplyTarget(ms, specs), SortBy(SpecKey, specs);
    TargetEntries(ms, specs);
    SortedTarget(specs);
    DeclaredIdsOfEntries(r);
    IdsOfFresh(sorted);
    forall i | 0 <= i < |r| && r[i].record.declared ensures r[i].UpstreamCurrent() {
      DeclaredEntryElements(r, r[i]);
    }
    ActiveAreEnabled(r);
    EnabledOfFresh(sorted);
  }

  // ----- Order of presentation -----

  /** The same specs in any order. */
  ghost predicate SameSpecs(a: seq<MemberSpec>, b: seq<MemberSpec>) {
    multiset(a) == multiset(b)
  }

  lemma SameSpecsElements(a: seq<MemberSpec>, b: seq<MemberSpec>)
    requires SameSpecs(a, b)
    ensures |a| == |b| && forall x :: x in a <==> x in b
  {
    MultisetMembers(a, b);
  }

  lemma SpecIdsMultiset(specs: seq<MemberSpec>, x: Id)
    ensures x in SpecIds(specs) <==> exists k :: 0 <= k < |specs| && specs[k].member == x
  {
    if x in SpecIds(specs) {
      var k :| 0 <= k < |specs| && SpecIds(specs)[k] == x;
    }
    if exists k :: 0 <= k < |specs| && specs[k].member == x {
      var k :| 0 <= k < |specs| && specs[k].member == x;
      assert SpecIds(specs)[k] == x;
    }
  }

  lemma SameSpecsListed(a: seq<MemberSpec>, b: seq<MemberSpec>)
    requires SameSpecs(a, b) && Listed(SpecIds(a))
    ensures Listed(SpecIds(b))
  {
    SortedTarget(a);
    SameSpecsElements(a, b);
    forall i | 0 <= i < |b| ensures SpecIds(b)[i] != NIL {
      assert b[i] in a;
      var k :| 0 <= k < |a| && a[k] == b[i];
      assert SpecIds(a)[k] == b[i].member;
    }
    forall i, j | 0 <= i < j < |b| ensures SpecIds(b)[i] != SpecIds(b)[j] {
      if b[i] == b[j] {
        RepeatedTwice(b, i, j);
        NotRepeated(a, b[i]);
        assert false;
      }
      assert b[i] in a && b[j] in a;
      var k :| 0 <= k < |a| && a[k] == b[i];
      var l :| 0 <= l < |a| && a[l] == b[j];
      assert SpecIds(a)[k] == b[i].member && SpecIds(a)[l] == b[j].member;
    }
  }

  lemma RepeatedTwice(b: seq<MemberSpec>, i: nat, j: nat)
    requires i < j < |b| && b[i] == b[j]
    ensures multiset(b)[b[i]] >= 2
  {
    assert b == b[..i] + [b[i]] + b[i + 1..j] + [b[j]] + b[j + 1..];
  }

  lemma {:induction false} NotRepeated(a: seq<MemberSpec>, x: MemberSpec)
    requires Listed(SpecIds(a))
    ensures multiset(a)[x] <= 1
  {
    if a != [] {
      var n := |a| - 1;
      assert SpecIds(a[..n]) == SpecIds(a)[..n];
      NotRepeated(a[..n], x);
      assert a == a[..n] + [a[n]];
      forall k | 0 <= k < n ensures a[..n][k] != a[n] {
        assert SpecIds(a)[k] != SpecIds(a)[n];
      }
    }
  }

  /** Neither the retargeted entries nor the sorted target depend on the order of the specs. */
  lemma TargetPermutation(ms: seq<MemberEntry>, a: seq<MemberSpec>, b: seq<MemberSpec>)
    requires EntriesOk(ms) && Listed(SpecIds(a)) && SameSpecs(a, b)
    ensures ApplyTarget(ms, a) == ApplyTarget(ms, b)
    ensures SortBy(SpecKey, a) == SortBy(SpecKey, b)
  {
    SameSpecsListed(a, b);
    SameSpecsElements(a, b);
    SpecKeysDistinct(a);
    SpecKeysDistinct(b);
    SortPermutation(SpecKey, a, b);
    RawListed(ms, a);
    RawListed(ms, b);
    EntryKeysDistinct(RawTarget(ms, a));
    EntryKeysDistinct(RawTarget(ms, b));
    forall e ensures e in RawTarget(ms, a) <==> e in RawTarget(ms, b) {
      NewcomersPermutation(ms, a, b, e);
      RetargetPermutation(ms, a, b);
    }
    SortPermutation(EntryKey, RawTarget(ms, a), RawTarget(ms, b));
  }

  lemma RetargetPermutation(ms: seq<MemberEntry>, a: seq<MemberSpec>, b: seq<MemberSpec>)
    requires Listed(SpecIds(a)) && Listed(SpecIds(b)) && forall x :: x in a <==> x in b
    ensures RetargetAll(ms, a) == RetargetAll(ms, b)
  {
    forall i | 0 <= i < |ms| ensures Retarget(ms[i], a) == Retarget(ms[i], b) {
      LookupPermutation(a, b, ms[i].record.member);
    }
  }

  lemma LookupPermutation(a: seq<MemberSpec>, b: seq<MemberSpec>, x: Id)
    requires Listed(SpecIds(a)) && Listed(SpecIds(b)) && forall y :: y in a <==> y in b
    ensures var i, j := IndexOf(SpecIds(a), x), IndexOf(SpecIds(b), x);
            (i < |a| <==> j < |b|) && (i < |a| ==> a[i] == b[j])
  {
    var i, j := IndexOf(SpecIds(a), x), IndexOf(SpecIds(b), x);
    if i < |a| {
      assert a[i] in b;
      var k :| 0 <= k < |b| && b[k] == a[i];
      SpecAt(b, k);
    }
    if j < |b| {
      assert b[j] in a;
      var k :| 0 <= k < |a| && a[k] == b[j];
      SpecAt(a, k);
    }
  }

  lemma NewcomersPermutation(ms: seq<MemberEntry>, a: seq<MemberSpec>, b: seq<MemberSpec>, e: MemberEntry)
    requires forall x :: x in a <==> x in b
    ensures e in Newcomers(ms, a) <==> e in Newcomers(ms, b)
  {
    NewcomerElements(ms, a, e);
    NewcomerElements(ms, b, e);
    if e in Newcomers(ms, a) {
      var k :| 0 <= k < |a| && e == FreshEntry(a[k]) && a[k].member !in MemberIds(ms);
      assert a[k] in b;
    }
    if e in Newcomers(ms, b) {
      var k :| 0 <= k < |b| && e == FreshEntry(b[k]) && b[k].member !in MemberIds(ms);
      assert b[k] in a;
    }
  }
}
