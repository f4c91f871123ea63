/** The governor's reverse indexes: what they stand for, and how they are maintained. */
module Indexes {
  import opened Prelude
  import opened Records
  import opened Groups
  import opened GroupProofs
  import opened Governor

  /** The index lists group id under key k. */
  predicate Lists(index: map<Id, set<Id>>, k: Id, id: Id) {
    k in index && id in index[k]
  }

  predicate OnMultipath(g: Group, k: Id) { k != NIL && g.multipathSet == k }

  predicate OnCostClass(g: Group, k: Id) { k != NIL && g.key.costClass == k }

  predicate OnAuthority(g: Group, k: Id) { k != NIL && g.publisher == k }

  ghost predicate NoEmptySets(index: map<Id, set<Id>>) {
    forall k :: k in index ==> index[k] != {}
  }

  /** The index is what a full scan of the groups would build. */
  ghost predicate Scans(index: map<Id, set<Id>>, groups: map<Id, Group>, rel: (Group, Id) -> bool) {
    && NoEmptySets(index)
    && forall k, id {:trigger Lists(index, k, id)} {:trigger rel(groups[id], k)} ::
         Lists(index, k, id) <==> id in groups && rel(groups[id], k)
  }

  predicate Owns(index: map<GroupKey, Id>, key: GroupKey, id: Id) {
    key in index && index[key] == id
  }

  predicate HasKey(groups: map<Id, Group>, id: Id, key: GroupKey) {
    id in groups && groups[id].key == key
  }

  /** Every group is listed under its own key, and nothing else is listed. */
  ghost predicate KeysExact(index: map<GroupKey, Id>, groups: map<Id, Group>) {
    forall key, id {:trigger Owns(index, key, id)} {:trigger HasKey(groups, id, key)} ::
      Owns(index, key, id) <==> HasKey(groups, id, key)
  }

  /** Every key that groups have is listed, under the group of lowest identity that has it. */
  ghost predicate KeysFirst(index: map<GroupKey, Id>, groups: map<Id, Group>) {
    && (forall key, id {:trigger Owns(index, key, id)} :: Owns(index, key, id) ==> HasKey(groups, id, key))
    && (forall key, id {:trigger HasKey(groups, id, key)} :: HasKey(groups, id, key) ==> key in index && index[key] <= id)
  }

  /** The key index answers exactly whether some group has a key. */
  lemma KeyTakenIndexed(index: map<GroupKey, Id>, groups: map<Id, Group>, key: GroupKey)
    requires KeysFirst(index, groups)
    ensures KeyTaken(groups, key) <==> key in index
  {
    if key in index { assert Owns(index, key, index[key]); }
    if KeyTaken(groups, key) {
      var id :| id in groups && groups[id].key == key;
      assert HasKey(groups, id, key);
    }
  }

  /** No two groups have the same key. */
  ghost predicate KeysUnique(groups: map<Id, Group>) {
    forall a, b :: a in groups && b in groups && groups[a].key == groups[b].key ==> a == b
  }

  lemma ExactKeysAreUnique(index: map<GroupKey, Id>, groups: map<Id, Group>)
    requires KeysExact(index, groups)
    ensures KeysUnique(groups)
  {
    forall a, b | a in groups && b in groups && groups[a].key == groups[b].key ensures a == b {
      assert HasKey(groups, a, groups[a].key) && HasKey(groups, b, groups[a].key);
      assert Owns(index, groups[a].key, a) && Owns(index, groups[a].key, b);
    }
  }

  /** The key index lists every group under its own key exactly when no two groups share one. */
  lemma KeysExactIffUnique(index: map<GroupKey, Id>, groups: map<Id, Group>)
    requires KeysFirst(index, groups)
    ensures KeysExact(index, groups) <==> KeysUnique(groups)
  {
    if KeysExact(index, groups) {
      ExactKeysAreUnique(index, groups);
    } else if KeysUnique(groups) {
      forall key, id ensures Owns(index, key, id) <==> HasKey(groups, id, key) {
        if HasKey(groups, id, key) { assert Owns(index, key, index[key]); }
      }
    }
  }

  lemma {:induction false} KeysCounted(index: map<GroupKey, Id>, groups: map<Id, Group>)
    requires KeysExact(index, groups)
    ensures |index| == |groups|
    decreases |groups|
  {
    if key :| key in index {
      var id := index[key];
      assert Owns(index, key, id) && HasKey(groups, id, key);
      var index', groups' := index - {key}, groups - {id};
      forall k, x ensures Owns(index', k, x) <==> HasKey(groups', x, k) {
        assert Owns(index, k, x) <==> HasKey(groups, x, k);
      }
      KeysCounted(index', groups');
    } else {
      forall id | id in groups ensures false { assert HasKey(groups, id, groups[id].key); }
      assert index == map[] && groups == map[];
    }
  }

  /** There is only one exact index: any other map built by a full scan is the very same map. */
  lemma ScansUnique(a: map<Id, set<Id>>, b: map<Id, set<Id>>, groups: map<Id, Group>, rel: (Group, Id) -> bool)
    requires Scans(a, groups, rel) && Scans(b, groups, rel)
    ensures a == b
  {
    forall k ensures k in a <==> k in b {
      if k in a { EntriesCarryOver(a, b, groups, rel, k); }
      if k in b { EntriesCarryOver(b, a, groups, rel, k); }
    }
    forall k | k in a ensures a[k] == b[k] {
      EntriesCarryOver(a, b, groups, rel, k);
      EntriesCarryOver(b, a, groups, rel, k);
    }
  }

  lemma EntriesCarryOver(a: map<Id, set<Id>>, b: map<Id, set<Id>>, groups: map<Id, Group>, rel: (Group, Id) -> bool, k: Id)
    requires Scans(a, groups, rel) && Scans(b, groups, rel) && k in a
    ensures k in b && forall id :: id in a[k] ==> id in b[k]
  {
    forall id | id in a[k] ensures k in b && id in b[k] {
      assert Lists(a, k, id);
      assert Lists(b, k, id);
    }
    var id :| id in a[k];
  }

  // ----- Maintenance -----

  method Erase(index: map<Id, set<Id>>, k: Id, id: Id) returns (r: map<Id, set<Id>>)
    requires NoEmptySets(index)
    ensures NoEmptySets(r) && forall x, y :: Lists(r, x, y) <==> Lists(index, x, y) && !(x == k && y == id)
  {
    r := index;
    if k in r {
      var rest := r[k] - {id};
      assert forall y :: y in index[k] ==> y in rest || y == id;
      r := if rest == {} then r - {k} else r[k := rest];
    }
  }

  method Insert(index: map<Id, set<Id>>, k: Id, id: Id) returns (r: map<Id, set<Id>>)
    requires NoEmptySets(index)
    ensures NoEmptySets(r) && forall x, y :: Lists(r, x, y) <==> Lists(index, x, y) || (x == k && y == id)
  {
    r := index[k := (if k in index then index[k] else {}) + {id}];
  }

  method EraseAll(index: map<Id, set<Id>>, keys: seq<Id>, id: Id) returns (r: map<Id, set<Id>>)
    requires NoEmptySets(index)
    ensures NoEmptySets(r) && forall x, y :: Lists(r, x, y) <==> Lists(index, x, y) && !(x in keys && y == id)
  {
    r := index;
    for i := 0 to |keys|
      invariant NoEmptySets(r)
      invariant forall x, y :: Lists(r, x, y) <==> Lists(index, x, y) && !(x in keys[..i] && y == id)
    {
      r := Erase(r, keys[i], id);
      assert keys[..i + 1] == keys[..i] + [keys[i]];
    }
    assert keys[..|keys|] == keys;
  }

  method InsertAll(index: map<Id, set<Id>>, keys: seq<Id>, id: Id) returns (r: map<Id, set<Id>>)
    requires NoEmptySets(index)
    ensures NoEmptySets(r) && forall x, y :: Lists(r, x, y) <==> Lists(index, x, y) || (x in keys && y == id)
  {
    r := index;
    for i := 0 to |keys|
      invariant NoEmptySets(r)
      invariant forall x, y :: Lists(r, x, y) <==> Lists(index, x, y) || (x in keys[..i] && y == id)
    {
      r := Insert(r, keys[i], id);
      assert keys[..i + 1] == keys[..i] + [keys[i]];
    }
    assert keys[..|keys|] == keys;
  }

  /** Moves a group from the keys it was listed under to the keys it belongs under. */
  method Reindex(index: map<Id, set<Id>>, before: seq<Id>, after: seq<Id>, id: Id) returns (r: map<Id, set<Id>>)
    requires NoEmptySets(index)
    ensures NoEmptySets(r) && Moved(index, before, after, id, r)
  {
    hide Lists;
    r := EraseAll(index, before, id);
    r := InsertAll(r, after, id);
  }

  ghost predicate Moved(index: map<Id, set<Id>>, before: seq<Id>, after: seq<Id>, id: Id, r: map<Id, set<Id>>) {
    forall x, y :: Lists(r, x, y) <==> (Lists(index, x, y) && !(x in before && y == id)) || (x in after && y == id)
  }

  /** Moving the entries of the one group that changed keeps the index exact. */
  lemma MovedIsExact(index: map<Id, set<Id>>, groups: map<Id, Group>, rel: (Group, Id) -> bool, g: Group,
                     before: seq<Id>, after: seq<Id>, r: map<Id, set<Id>>)
    requires Scans(index, groups, rel) && NoEmptySets(r) && Moved(index, before, after, g.id, r)
    requires forall k :: k in after <==> rel(g, k)
    requires g.id in groups ==> forall k :: rel(groups[g.id], k) ==> k in before
    ensures Scans(r, groups[g.id := g], rel)
  {
    hide Lists;
    var groups' := groups[g.id := g];
    forall k, id ensures Lists(r, k, id) <==> id in groups' && rel(groups'[id], k) {
      assert Lists(index, k, id) <==> id in groups && rel(groups[id], k);
    }
  }

  /** A change that an index does not follow leaves it exact. */
  lemma UnmovedIsExact(index: map<Id, set<Id>>, groups: map<Id, Group>, rel: (Group, Id) -> bool, g: Group)
    requires Scans(index, groups, rel) && g.id in groups && forall k :: rel(g, k) <==> rel(groups[g.id], k)
    ensures Scans(index, groups[g.id := g], rel)
  {
    hide Lists;
    var groups' := groups[g.id := g];
    forall k, id ensures Lists(index, k, id) <==> id in groups' && rel(groups'[id], k) {
      assert Lists(index, k, id) <==> id in groups && rel(groups[id], k);
    }
  }

  lemma KeysUnmoved(index: map<GroupKey, Id>, groups: map<Id, Group>, g: Group)
    requires KeysFirst(index, groups) && g.id in groups && groups[g.id].key == g.key
    ensures KeysFirst(index, groups[g.id := g])
  {
    var groups' := groups[g.id := g];
    assert forall key, id :: HasKey(groups', id, key) <==> HasKey(groups, id, key);
    forall key, id | Owns(index, key, id) ensures HasKey(groups', id, key) { assert HasKey(groups, id, key); }
    forall key, id | HasKey(groups', id, key) ensures key in index && index[key] <= id {
      assert HasKey(groups, id, key);
    }
  }

  /** The key index with one more group, unless its key is listed already. */
  function Emplaced(index: map<GroupKey, Id>, g: Group): map<GroupKey, Id> {
    if g.key in index then index else index[g.key := g.id]
  }

  lemma KeyAdded(index: map<GroupKey, Id>, groups: map<Id, Group>, g: Group)
    requires KeysFirst(index, groups) && g.id !in groups && (g.key in index ==> index[g.key] < g.id)
    ensures KeysFirst(Emplaced(index, g), groups[g.id := g])
  {
    var index', groups' := Emplaced(index, g), groups[g.id := g];
    forall key, id | Owns(index', key, id) ensures HasKey(groups', id, key) {
      assert Owns(index, key, id) || id == g.id;
    }
    forall key, id | HasKey(groups', id, key) ensures key in index' && index'[key] <= id {
      assert HasKey(groups, id, key) || id == g.id;
    }
  }

  /** The paths of the declared members, each once. */
  method DeclaredPaths(g: Group) returns (paths: seq<Id>)
    ensures Distinct(paths) && forall p :: p in paths <==> DeclaresPath(g, p)
  {
    paths := [];
    for i := 0 to |g.members|
      invariant Distinct(paths)
      invariant forall p :: p in paths <==>
                  exists j :: 0 <= j < i && g.members[j].record.declared && g.members[j].record.path == p
    {
      var e := g.members[i].record;
      if e.declared && e.path !in paths { paths := paths + [e.path]; }
    }
  }

  // ----- Totals -----

  lemma {:induction false} TotalWithout(groups: map<Id, Group>, id: Id)
    requires id in groups
    ensures Total(groups) == |DeclaredIds(groups[id].members)| + Total(groups - {id})
    decreases |groups|
  {
    hide DeclaredIds;
    assert groups != map[] && |groups| > 0;
    var x := AnyKey(groups);
    if x != id {
      assert id in groups - {x} && x in groups - {id};
      TotalWithout(groups - {x}, id);
      TotalWithout(groups - {id}, x);
      assert groups - {x} - {id} == groups - {id} - {x};
    }
  }

  /** Storing one group changes the total by what that group declares. */
  lemma TotalStored(groups: map<Id, Group>, g: Group)
    ensures Total(groups[g.id := g]) ==
            Total(groups) + |DeclaredIds(g.members)| -
            (if g.id in groups then |DeclaredIds(groups[g.id].members)| else 0)
  {
    hide DeclaredIds, Total;
    TotalWithout(groups[g.id := g], g.id);
    assert groups[g.id := g] - {g.id} == groups - {g.id};
    if g.id in groups { TotalWithout(groups, g.id); } else { assert groups - {g.id} == groups; }
  }

  // ----- All tables together -----

  /** The five indexes, what each group is currently listed under, and the member counter. */
  datatype Tables = Tables(keys: map<GroupKey, Id>, paths: map<Id, set<Id>>, sets: map<Id, set<Id>>,
                           classes: map<Id, set<Id>>, publishers: map<Id, set<Id>>,
                           listedPaths: map<Id, seq<Id>>, listedPublisher: map<Id, Id>, total: nat)

  ghost predicate PathsListed(listed: map<Id, seq<Id>>, groups: map<Id, Group>) {
    forall id :: id in groups ==> id in listed && forall p :: p in listed[id] <==> DeclaresPath(groups[id], p)
  }

  ghost predicate PublishersListed(listed: map<Id, Id>, groups: map<Id, Group>) {
    forall id :: id in groups ==> id in listed && listed[id] == groups[id].publisher
  }

  ghost predicate Named(groups: map<Id, Group>) {
    forall id :: id in groups ==> groups[id].id == id
  }

  /** Every index is what a full scan of the groups in ascending order would build, and the counter is the sum of declared
      members. */
  ghost predicate Exact(t: Tables, groups: map<Id, Group>) {
    && Scans(t.paths, groups, DeclaresPath) && Scans(t.sets, groups, OnMultipath)
    && Scans(t.classes, groups, OnCostClass) && Scans(t.publishers, groups, OnAuthority)
    && KeysFirst(t.keys, groups) && PathsListed(t.listedPaths, groups) && PublishersListed(t.listedPublisher, groups)
    && t.total == Total(groups) && Named(groups)
  }

  lemma NamedStored(groups: map<Id, Group>, g: Group)
    requires Named(groups)
    ensures Named(groups[g.id := g])
  {
  }

  lemma ListedStored(t: Tables, groups: map<Id, Group>, g: Group, paths: seq<Id>)
    requires PathsListed(t.listedPaths, groups) && PublishersListed(t.listedPublisher, groups)
    requires forall p :: p in paths <==> DeclaresPath(g, p)
    ensures PathsListed(t.listedPaths[g.id := paths], groups[g.id := g])
    ensures PublishersListed(t.listedPublisher[g.id := g.publisher], groups[g.id := g])
  {
    hide DeclaresPath;
  }

  /** The tables after storing a changed group. */
  lemma StoredExact(t: Tables, groups: map<Id, Group>, g: Group, t': Tables, paths: seq<Id>)
    requires Exact(t, groups) && g.id in groups && groups[g.id].key == g.key
    requires Scans(t'.paths, groups[g.id := g], DeclaresPath) && Scans(t'.sets, groups[g.id := g], OnMultipath)
    requires Scans(t'.publishers, groups[g.id := g], OnAuthority) && forall p :: p in paths <==> DeclaresPath(g, p)
    requires t'.keys == t.keys && t'.classes == t.classes && t'.listedPaths == t.listedPaths[g.id := paths]
    requires t'.listedPublisher == t.listedPublisher[g.id := g.publisher]
    requires t'.total == t.total + |DeclaredIds(g.members)| - |DeclaredIds(groups[g.id].members)|
    ensures Exact(t', groups[g.id := g])
  {
    hide DeclaresPath, Total, Scans, DeclaredIds, KeysFirst, Named, PathsListed, PublishersListed;
    TotalStored(groups, g);
    UnmovedIsExact(t.classes, groups, OnCostClass, g);
    KeysUnmoved(t.keys, groups, g);
    NamedStored(groups, g);
    ListedStored(t, groups, g, paths);
  }

  /** The tables after storing a new group. */
  lemma AddedExact(t: Tables, groups: map<Id, Group>, g: Group, t': Tables, paths: seq<Id>)
    requires Exact(t, groups) && g.id !in groups && (g.key in t.keys ==> t.keys[g.key] < g.id)
    requires Scans(t'.paths, groups[g.id := g], DeclaresPath) && Scans(t'.sets, groups[g.id := g], OnMultipath)
    requires Scans(t'.classes, groups[g.id := g], OnCostClass) && Scans(t'.publishers, groups[g.id := g], OnAuthority)
    requires forall p :: p in paths <==> DeclaresPath(g, p)
    requires t'.keys == Emplaced(t.keys, g) && t'.listedPaths == t.listedPaths[g.id := paths]
    requires t'.listedPublisher == t.listedPublisher[g.id := g.publisher]
    requires t'.total == t.total + |DeclaredIds(g.members)|
    ensures Exact(t', groups[g.id := g])
  {
    hide DeclaresPath, Total, Scans, DeclaredIds, KeysFirst, Named, PathsListed, PublishersListed;
    TotalStored(groups, g);
    KeyAdded(t.keys, groups, g);
    NamedStored(groups, g);
    ListedStored(t, groups, g, paths);
  }

  /** A change that moves no index entry: the same identity, publisher, places and declared members. */
  ghost predicate Quiet(g: Group, g': Group) {
    && g'.id == g.id && g'.key == g.key && g'.multipathSet == g.multipathSet && g'.publisher == g.publisher
    && SamePlaces(g.members, g'.members)
    && forall i :: 0 <= i < |g.members| ==> g'.members[i].record.declared == g.members[i].record.declared
  }

  lemma QuietPaths(g: Group, g': Group)
    requires Quiet(g, g')
    ensures |DeclaredIds(g'.members)| == |DeclaredIds(g.members)|
    ensures forall p :: DeclaresPath(g', p) <==> DeclaresPath(g, p)
  {
    SameDeclared(g.members, g'.members);
  }

  lemma QuietListed(t: Tables, groups: map<Id, Group>, g: Group)
    requires PathsListed(t.listedPaths, groups) && PublishersListed(t.listedPublisher, groups) && g.id in groups
    requires g.publisher == groups[g.id].publisher && forall p :: DeclaresPath(g, p) <==> DeclaresPath(groups[g.id], p)
    ensures PathsListed(t.listedPaths, groups[g.id := g]) && PublishersListed(t.listedPublisher, groups[g.id := g])
  {
    hide DeclaresPath;
  }

  /** Storing a quiet change leaves the tables exact as they are. */
  lemma QuietExact(t: Tables, groups: map<Id, Group>, g: Group)
    requires Exact(t, groups) && g.id in groups && Quiet(groups[g.id], g)
    ensures Exact(t, groups[g.id := g])
  {
    hide DeclaresPath, Total, Scans, DeclaredIds, KeysFirst, Named, PathsListed, PublishersListed;
    TotalStored(groups, g);
    QuietPaths(groups[g.id], g);
    UnmovedIsExact(t.paths, groups, DeclaresPath, g);
    UnmovedIsExact(t.sets, groups, OnMultipath, g);
    UnmovedIsExact(t.classes, groups, OnCostClass, g);
    UnmovedIsExact(t.publishers, groups, OnAuthority, g);
    KeysUnmoved(t.keys, groups, g);
    NamedStored(groups, g);
    QuietListed(t, groups, g);
  }
}
