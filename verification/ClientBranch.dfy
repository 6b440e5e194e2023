/** The active branch of a client: the walk along held parents, and the branch values kept step by step. */
module ClientBranch {
  import opened Prelude
  import opened OrderedMaps
  import opened ClientFold

  // ----- The walk

  function Reverse(s: seq<Entry>): seq<Entry> {
    if s == [] then [] else Reverse(s[1..]) + [s[0]]
  }

  lemma {:induction false} ReverseSnoc(s: seq<Entry>, e: Entry)
    ensures Reverse(s + [e]) == [e] + Reverse(s)
  {
    if s != [] {
      assert (s + [e])[1..] == s[1..] + [e];
      ReverseSnoc(s[1..], e);
    } else {
      assert (s + [e])[1..] == [];
    }
  }

  /** `heldBranch`: follow parents until one is missing or comes round again. */
  method WalkHeldBranch(byId: OMap<string, Entry>, leafId: Option<string>) returns (branch: seq<Entry>)
    ensures branch == HeldBranch(byId, leafId)
  {
    var path: seq<Entry>, seen: set<string>, id := [], {}, leafId;
    while id.Some? && id.value !in seen
      invariant HeldPath(byId, id, seen) + Reverse(path) == HeldBranch(byId, leafId)
      decreases Keys(byId) - seen
    {
      var entry := Get(byId, id.value);
      KeysAre(byId, id.value);
      if entry.None? { break; }
      ghost var rest := HeldPath(byId, entry.value.parentId, seen + {id.value});
      assert id.value in Keys(byId) - seen;
      assert HeldPath(byId, id, seen) == rest + [entry.value];
      ReverseSnoc(path, entry.value);
      assert (rest + [entry.value]) + Reverse(path) == rest + ([entry.value] + Reverse(path));
      seen := seen + {id.value};
      path := path + [entry.value];
      id := entry.value.parentId;
    }
    assert HeldPath(byId, id, seen) == [];
    branch := Reverse(path);
  }

  // ----- What the walk finds

  /** Entries are held under their own ids. */
  ghost predicate Keyed(byId: OMap<string, Entry>) {
    forall e :: e in byId ==> e.0 == e.1.id
  }

  ghost predicate OnPath(path: seq<Entry>, id: string) {
    exists i :: 0 <= i < |path| && path[i].id == id
  }

  /** The walk ends before `id`: there is none, it is not held, or it was met before. */
  ghost predicate Stops(byId: OMap<string, Entry>, id: Option<string>, seen: set<string>) {
    id.None? || id.value in seen || !Has(byId, id.value)
  }

  /** A maximal chain of held parents, root first, that ends at `id` and meets no entry twice. */
  ghost predicate IsChain(byId: OMap<string, Entry>, id: Option<string>, seen: set<string>, path: seq<Entry>) {
    && (forall i :: 0 <= i < |path| ==> Get(byId, path[i].id) == Some(path[i]) && path[i].id !in seen)
    && (forall i, j :: 0 <= i < j < |path| ==> path[i].id != path[j].id)
    && (forall i :: 0 < i < |path| ==> path[i].parentId == Some(path[i - 1].id))
    && if path == [] then Stops(byId, id, seen)
       else
         && id == Some(path[|path| - 1].id)
         && (path[0].parentId.None? || path[0].parentId.value in seen || !Has(byId, path[0].parentId.value)
             || OnPath(path, path[0].parentId.value))
  }

  lemma {:induction false} WalkIsChain(byId: OMap<string, Entry>, id: Option<string>, seen: set<string>)
    requires Keyed(byId)
    ensures IsChain(byId, id, seen, HeldPath(byId, id, seen))
    decreases Keys(byId) - seen
  {
    if !Stops(byId, id, seen) {
      var entry := Get(byId, id.value).value;
      KeysAre(byId, id.value);
      GetIsMember(byId, id.value);
      assert id.value in Keys(byId) - seen;
      WalkIsChain(byId, entry.parentId, seen + {id.value});
      var rest := HeldPath(byId, entry.parentId, seen + {id.value});
      var path := rest + [entry];
      assert entry.id == id.value;
      if rest == [] {
        if entry.parentId == id { assert path[0].id == entry.id; }
      } else {
        if path[0].parentId.Some? && path[0].parentId.value == id.value { assert path[|path| - 1].id == id.value; }
        if path[0].parentId.Some? && OnPath(rest, path[0].parentId.value) {
          var k :| 0 <= k < |rest| && rest[k].id == path[0].parentId.value;
          assert path[k].id == path[0].parentId.value;
        }
      }
    }
  }

  /** There is only one such chain, so the walk terminates with it even when parents go round. */
  lemma {:induction false} ChainIsUnique(byId: OMap<string, Entry>, id: Option<string>, seen: set<string>,
      path: seq<Entry>)
    requires Keyed(byId) && IsChain(byId, id, seen, path)
    ensures path == HeldPath(byId, id, seen)
    decreases |path|
  {
    if path != [] {
      var n := |path| - 1;
      var last := path[n];
      assert Get(byId, last.id) == Some(last);
      KeysAre(byId, last.id);
      var rest := path[..n];
      assert forall i :: 0 <= i < n ==> rest[i] == path[i];
      if n == 0 {
        if last.parentId.Some? && OnPath(path, last.parentId.value) { assert last.parentId.value == last.id; }
        assert Stops(byId, last.parentId, seen + {last.id});
      } else {
        assert last.parentId == Some(path[n - 1].id);
        if path[0].parentId.Some? && OnPath(path, path[0].parentId.value) {
          var k :| 0 <= k < |path| && path[k].id == path[0].parentId.value;
          if k < n { assert rest[k].id == path[0].parentId.value; }
        }
      }
      ChainIsUnique(byId, last.parentId, seen + {last.id}, rest);
      assert path == rest + [last];
    }
  }

  // ----- New entries and held paths

  /** No held entry names `id` as its parent. */
  ghost predicate Unnamed(byId: OMap<string, Entry>, id: string) {
    forall e :: e in byId ==> e.1.parentId != Some(id)
  }

  lemma {:induction false} PathUnaffected(byId: OMap<string, Entry>, e: Entry, id: Option<string>, seen: set<string>)
    requires !Has(byId, e.id) && Unnamed(byId, e.id) && id != Some(e.id)
    ensures HeldPath(Put(byId, e.id, e), id, seen) == HeldPath(byId, id, seen)
    decreases Keys(byId) - seen
  {
    if id.Some? {
      GetPut(byId, e.id, e, id.value);
      if !Stops(byId, id, seen) {
        var entry := Get(byId, id.value).value;
        KeysAre(byId, id.value);
        GetIsMember(byId, id.value);
        assert id.value in Keys(byId) - seen;
        PathUnaffected(byId, e, entry.parentId, seen + {id.value});
      }
    }
  }

  lemma {:induction false} SeenIrrelevant(byId: OMap<string, Entry>, x: string, id: Option<string>, seen: set<string>)
    requires Unnamed(byId, x) && id != Some(x)
    ensures HeldPath(byId, id, seen + {x}) == HeldPath(byId, id, seen)
    decreases Keys(byId) - seen
  {
    if !Stops(byId, id, seen) {
      var entry := Get(byId, id.value).value;
      KeysAre(byId, id.value);
      GetIsMember(byId, id.value);
      assert id.value in Keys(byId) - seen;
      SeenIrrelevant(byId, x, entry.parentId, seen + {id.value});
      assert seen + {x} + {id.value} == seen + {id.value} + {x};
    }
  }

  /** The path to an entry that just arrived is the path to its parent, and the entry. */
  lemma {:induction false} ArrivedPath(byId: OMap<string, Entry>, e: Entry)
    requires !Has(byId, e.id) && Unnamed(byId, e.id) && e.parentId != Some(e.id)
    ensures HeldBranch(Put(byId, e.id, e), Some(e.id)) == HeldBranch(byId, e.parentId) + [e]
  {
    GetPut(byId, e.id, e, e.id);
    PathUnaffected(byId, e, e.parentId, {e.id});
    SeenIrrelevant(byId, e.id, e.parentId, {});
    assert {} + {e.id} == {e.id};
  }

  // ----- Incremental equals from scratch

  /** A well-formed log: nothing the client knows named the entry before it arrived. */
  ghost predicate Arrives(s: ClientState, e: Entry) {
    s.leafId != Some(e.id) && Unnamed(s.byId, e.id)
  }

  ghost predicate ArrivesInOrder(s: ClientState, steps: seq<ClientStep>)
    decreases steps
  {
    steps == [] ||
    (&& (steps[0].FoldEntry? ==> Arrives(s, steps[0].entry))
     && (Step(s, steps[0]).Ok? ==> ArrivesInOrder(Step(s, steps[0]).value, steps[1..])))
  }

  /** The branch values are the base overwritten by the changes along the held path. */
  ghost predicate FromScratch(s: ClientState) {
    s.values == Derive(s.base, HeldBranch(s.byId, s.leafId))
  }

  lemma {:induction false} DeriveSnoc(base: BranchValues, path: seq<Entry>, e: Entry)
    ensures Derive(base, path + [e]) == ApplyBranchValue(Derive(base, path), e)
  {
    assert (path + [e])[..|path|] == path;
  }

  lemma {:induction false} ApplyFromScratch(s: ClientState, e: Entry)
    requires FromScratch(s) && Arrives(s, e) && Apply(s, e).Ok?
    ensures FromScratch(Apply(s, e).value)
  {
    PathUnaffected(s.byId, e, s.leafId, {});
    if IsPublic(e.body) && e.parentId == s.leafId {
      ArrivedPath(s.byId, e);
      DeriveSnoc(s.base, HeldBranch(s.byId, s.leafId), e);
    }
  }

  /** Whatever the client folded and wherever its leaf moved, its branch values are those from scratch. */
  lemma {:induction false} IncrementalIsFromScratch(s: ClientState, steps: seq<ClientStep>)
    requires FromScratch(s) && ArrivesInOrder(s, steps)
    ensures Run(s, steps).Ok? ==> FromScratch(Run(s, steps).value)
    decreases steps
  {
    if steps != [] {
      var next := Step(s, steps[0]);
      if next.Ok? {
        if steps[0].FoldEntry? { ApplyFromScratch(s, steps[0].entry); }
        IncrementalIsFromScratch(next.value, steps[1..]);
      }
    }
  }

  /**
   * Without the order the values go stale: a leaf that names an entry which only then arrives keeps the
   * base, and is right exactly when nothing on the entry's own path changes it.
   */
  lemma {:induction false} LateArrivalGoesStale(s: ClientState, e: Entry)
    requires FromScratch(s) && Apply(s, e).Ok? && s.leafId == Some(e.id)
    requires Unnamed(s.byId, e.id) && e.parentId != Some(e.id) && !IsPublic(e.body) && !e.body.LeafMove?
    ensures FromScratch(Apply(s, e).value) <==> Derive(s.base, HeldBranch(s.byId, e.parentId)) == s.base
  {
    ArrivedPath(s.byId, e);
    DeriveSnoc(s.base, HeldBranch(s.byId, e.parentId), e);
  }
}
