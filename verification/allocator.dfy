/**
  core/storage, the name allocator: in every run no row displaces another, a basename is shared by
  the members of one pair and by nobody else, and giving up means that every candidate was held.
*/
module Allocator {
  import opened Wrappers
  import opened Texts
  import opened Naming
  import opened Ledger

  predicate Partners(r: Row, s: Row) {
    r.device == s.device && r.pair == s.pair && r.pair != ""
  }

  /** The name a later member of the pair is to have, whatever the template says by then. */
  function Own(x: World, k: (string, string), ext: string): Rendered
    requires k in x.pairs
  {
    Rendered(x.pairs[k].0, x.pairs[k].1, ext)
  }

  /** Rows are stored under the path they were given, and what is reserved can be a name. */
  predicate Filed(w: World) {
    && (forall p | p in w.files :: p == w.files[p].name.Path() && NameOk(w.files[p].name))
    && (forall k | k in w.pairs :: NameOk(Own(w, k, "")))
  }

  /** Two rows with one basename in one directory are members of one pair of one device. */
  predicate SharedByPairs(w: World) {
    forall p, q | p in w.files && q in w.files && p != q &&
        Named(w.files[p], w.files[q].name.dir, w.files[q].name.base) ::
      Partners(w.files[p], w.files[q])
  }

  /** A reserved basename belongs to a row of its pair, and to no row outside the pair. */
  predicate ReservedForPair(w: World) {
    forall k | k in w.pairs ::
      && Taken(w.files, w.pairs[k].0, w.pairs[k].1)
      && forall p | p in w.files && Named(w.files[p], w.pairs[k].0, w.pairs[k].1) ::
           w.files[p].device == k.0 && w.files[p].pair == k.1 && k.1 != ""
  }

  predicate Allocated(w: World) {
    Filed(w) && SharedByPairs(w) && ReservedForPair(w)
  }

  lemma RuledNameOk(u: Rules, tmpl: string, vars: Vars, counter: nat)
    requires counter < MAX_ATTEMPTS && u.render(tmpl, vars, counter).Ok?
    ensures NameOk(u.render(tmpl, vars, counter).value)
  {
  }

  lemma {:induction false} SearchFindsFree(
      u: Rules, files: map<string, Row>, disk: map<Key, Bytes>, tmpl: string, vars: Vars, counter: nat)
    requires counter <= MAX_ATTEMPTS && Search(u, files, disk, tmpl, vars, counter).At?
    ensures var n := Search(u, files, disk, tmpl, vars, counter).name;
      Free(files, disk, n) && !Taken(files, n.dir, n.base) && NameOk(n)
    decreases MAX_ATTEMPTS - counter
  {
    hide Taken, Free;
    if counter < MAX_ATTEMPTS && u.render(tmpl, vars, counter).Ok? {
      var name := u.render(tmpl, vars, counter).value;
      if Taken(files, name.dir, name.base) || !Free(files, disk, name) {
        SearchFindsFree(u, files, disk, tmpl, vars, counter + 1);
      } else {
        RuledNameOk(u, tmpl, vars, counter);
      }
    }
  }

  /** Whatever else holds: a name that is handed out is free on disk and in the ledger. */
  lemma PlacedIsFree(u: Rules, w: World, inc: Incoming, tmpl: string)
    requires PlaceAt(u, w, inc, tmpl).At?
    ensures Free(w.files, w.disk, PlaceAt(u, w, inc, tmpl).name)
  {
    hide Free, Search;
    SearchedIsFree(u, w, inc, tmpl);
  }

  lemma SearchedIsFree(u: Rules, w: World, inc: Incoming, tmpl: string)
    ensures Search(u, w.files, w.disk, tmpl, inc.vars, 0).At? ==>
      Free(w.files, w.disk, Search(u, w.files, w.disk, tmpl, inc.vars, 0).name)
  {
    hide Free, Search;
    if Search(u, w.files, w.disk, tmpl, inc.vars, 0).At? {
      SearchFindsFree(u, w.files, w.disk, tmpl, inc.vars, 0);
    }
  }

  lemma PlacedNameOk(u: Rules, w: World, inc: Incoming, tmpl: string)
    requires Filed(w) && PlaceAt(u, w, inc, tmpl).At?
    ensures NameOk(PlaceAt(u, w, inc, tmpl).name)
  {
    hide Search, Free, Rendered.Path;
    var k := (inc.device, inc.pair);
    if inc.pair != "" && k in w.pairs && u.render(tmpl, inc.vars, 0).Ok? {
      RuledNameOk(u, tmpl, inc.vars, 0);
      assert NameOk(Own(w, k, ""));
    }
    if Search(u, w.files, w.disk, tmpl, inc.vars, 0).At? {
      SearchFindsFree(u, w.files, w.disk, tmpl, inc.vars, 0);
    }
  }

  /** What `place` may hand out: a free name nobody has, or the one its own pair reserved. */
  lemma PlacedNameIsFree(u: Rules, w: World, inc: Incoming, tmpl: string)
    requires Filed(w) && PlaceAt(u, w, inc, tmpl).At?
    ensures var n := PlaceAt(u, w, inc, tmpl).name;
      && Free(w.files, w.disk, n) && NameOk(n)
      && (!Taken(w.files, n.dir, n.base) ||
          (inc.pair != "" && (inc.device, inc.pair) in w.pairs && w.pairs[(inc.device, inc.pair)] == (n.dir, n.base)))
  {
    hide Search, Free, Filed, NameOk, Taken;
    PlacedNameOk(u, w, inc, tmpl);
    PlacedIsFree(u, w, inc, tmpl);
    if Search(u, w.files, w.disk, tmpl, inc.vars, 0).At? {
      SearchFindsFree(u, w.files, w.disk, tmpl, inc.vars, 0);
    }
  }

  lemma PlaceKeepsFiled(u: Rules, w: World, inc: Incoming, tmpl: string)
    requires Filed(w) && PlaceAt(u, w, inc, tmpl).At?
    ensures Filed(Claimed(w, inc, PlaceAt(u, w, inc, tmpl).name))
  {
    hide PlaceAt, DiskKey, Rendered.Path;
    PlacedNameOk(u, w, inc, tmpl);
  }

  lemma AllocatedIsFiled(w: World)
    requires Allocated(w)
    ensures Filed(w)
  {
  }

  lemma PlaceKeepsAllocated(u: Rules, w: World, inc: Incoming, tmpl: string)
    requires Allocated(w) && PlaceAt(u, w, inc, tmpl).At?
    ensures Allocated(Claimed(w, inc, PlaceAt(u, w, inc, tmpl).name))
  {
    hide PlaceAt, DiskKey, Allocated, Taken, Rendered.Path;
    AllocatedIsFiled(w);
    PlacedNameIsFree(u, w, inc, tmpl);
    var n := PlaceAt(u, w, inc, tmpl).name;
    ClaimKeepsAllocated(w, Claimed(w, inc, n), n.Path(), RowOf(inc, n), (inc.device, inc.pair));
  }

  /** Adding one row whose basename was free or reserved for it, and a reservation if it had none. */
  lemma ClaimKeepsAllocated(w: World, v: World, path: string, r: Row, k: (string, string))
    requires Allocated(w) && path !in w.files && path == r.name.Path() && NameOk(r.name) && k == (r.device, r.pair)
    requires v.files == w.files[path := r]
    requires v.pairs == if r.pair != "" && k !in w.pairs then w.pairs[k := (r.name.dir, r.name.base)] else w.pairs
    requires !Taken(w.files, r.name.dir, r.name.base)
      || (r.pair != "" && k in w.pairs && w.pairs[k] == (r.name.dir, r.name.base))
    ensures Allocated(v)
  {
    hide Rendered.Path, Filed, Taken, SharedByPairs, ReservedForPair;
    FiledAfterClaim(w, v, path, r, k);
    SharedAfterClaim(w, v, path, r, k);
    ReservedAfterClaim(w, v, path, r, k);
  }

  lemma FiledAfterClaim(w: World, v: World, path: string, r: Row, k: (string, string))
    requires Filed(w) && path !in w.files && path == r.name.Path() && NameOk(r.name)
    requires v.files == w.files[path := r]
    requires v.pairs == if r.pair != "" && k !in w.pairs then w.pairs[k := (r.name.dir, r.name.base)] else w.pairs
    ensures Filed(v)
  {
    hide Rendered.Path;
  }

  lemma SharedAfterClaim(w: World, v: World, path: string, r: Row, k: (string, string))
    requires SharedByPairs(w) && ReservedForPair(w) && path !in w.files && k == (r.device, r.pair)
    requires v.files == w.files[path := r]
    requires !Taken(w.files, r.name.dir, r.name.base)
      || (r.pair != "" && k in w.pairs && w.pairs[k] == (r.name.dir, r.name.base))
    ensures SharedByPairs(v)
  {
    forall p | p in w.files && Named(w.files[p], r.name.dir, r.name.base)
      ensures Partners(w.files[p], r)
    {
    }
    forall p, q | p in v.files && q in v.files && p != q && Named(v.files[p], v.files[q].name.dir, v.files[q].name.base)
      ensures Partners(v.files[p], v.files[q])
    {
      if p != path && q != path {
        assert Named(w.files[p], w.files[q].name.dir, w.files[q].name.base);
      } else if p == path {
        assert Named(w.files[q], r.name.dir, r.name.base);
      }
    }
  }

  lemma ReservedAfterClaim(w: World, v: World, path: string, r: Row, k: (string, string))
    requires ReservedForPair(w) && path !in w.files && k == (r.device, r.pair)
    requires v.files == w.files[path := r]
    requires v.pairs == if r.pair != "" && k !in w.pairs then w.pairs[k := (r.name.dir, r.name.base)] else w.pairs
    requires !Taken(w.files, r.name.dir, r.name.base)
      || (r.pair != "" && k in w.pairs && w.pairs[k] == (r.name.dir, r.name.base))
    ensures ReservedForPair(v)
  {
    forall j | j in v.pairs
      ensures Taken(v.files, v.pairs[j].0, v.pairs[j].1)
    {
      if j in w.pairs {
        var p :| p in w.files && Named(w.files[p], w.pairs[j].0, w.pairs[j].1);
        assert p in v.files && Named(v.files[p], v.pairs[j].0, v.pairs[j].1);
      } else {
        assert path in v.files && Named(v.files[path], v.pairs[j].0, v.pairs[j].1);
      }
    }
    assert forall p | p in w.files && Named(w.files[p], r.name.dir, r.name.base) ::
        Taken(w.files, r.name.dir, r.name.base);
    forall j, p | j in v.pairs && p in v.files && Named(v.files[p], v.pairs[j].0, v.pairs[j].1)
      ensures v.files[p].device == j.0 && v.files[p].pair == j.1 && j.1 != ""
    {
      if j in w.pairs && p == path {
        assert Taken(w.files, r.name.dir, r.name.base);
        var q :| q in w.files && Named(w.files[q], w.pairs[j].0, w.pairs[j].1);
      }
    }
  }

  /** The rows keep their names, and with them everything the allocator promises. */
  predicate SameNames(w: World, v: World) {
    v.pairs == w.pairs && v.files.Keys == w.files.Keys &&
    forall p | p in w.files ::
        v.files[p].(removed := false, attested := false) == w.files[p].(removed := false, attested := false)
  }

  lemma SameNamesKeepFiled(w: World, v: World)
    requires Filed(w) && SameNames(w, v)
    ensures Filed(v)
  {
    hide DiskKey, Rendered.Path, NameOk;
    assert forall p | p in w.files :: v.files[p].(removed := false, attested := false).name == w.files[p].name;
  }

  lemma SameNamesKeepAllocated(w: World, v: World)
    requires Allocated(w) && SameNames(w, v)
    ensures Allocated(v)
  {
    hide DiskKey, Rendered.Path, Filed, SharedByPairs, ReservedForPair;
    SameNamesKeepFiled(w, v);
    SameNamesKeepShared(w, v);
    SameNamesKeepReserved(w, v);
  }

  lemma SameRow(w: World, v: World, p: string)
    requires SameNames(w, v) && p in w.files
    ensures p in v.files && v.files[p].name == w.files[p].name
    ensures v.files[p].device == w.files[p].device && v.files[p].pair == w.files[p].pair
  {
    assert v.files[p].(removed := false, attested := false) == w.files[p].(removed := false, attested := false);
  }

  lemma SameNamesKeepShared(w: World, v: World)
    requires SharedByPairs(w) && SameNames(w, v)
    ensures SharedByPairs(v)
  {
    forall p | p in v.files {
      SameRow(w, v, p);
    }
  }

  lemma SameNamesKeepReserved(w: World, v: World)
    requires ReservedForPair(w) && SameNames(w, v)
    ensures ReservedForPair(v)
  {
    forall p | p in v.files {
      SameRow(w, v, p);
    }
    forall k | k in v.pairs
      ensures Taken(v.files, v.pairs[k].0, v.pairs[k].1)
    {
      var p :| p in w.files && Named(w.files[p], w.pairs[k].0, w.pairs[k].1);
      assert p in v.files && Named(v.files[p], v.pairs[k].0, v.pairs[k].1);
    }
  }

  lemma OtherStepsKeepNames(u: Rules, w: World, s: Step)
    requires Enabled(u, w, s) && !s.Place? && !s.Unplace?
    ensures SameNames(w, Apply(u, w, s))
  {
    if Moves(s) {
      hide Enabled, Apply;
      MovesFrame(u, w, s);
    } else {
      hide PlaceAt, DiskKey, SlotFrom, Target, ToDo, Requeued, Claimed, Unplaced;
    }
  }

  /** Names are names in every run, whatever else happens to the receiver. */
  lemma {:induction false} FiledInEveryRun(u: Rules, disk: map<Key, Bytes>, steps: seq<Step>)
    requires Runs(u, Init(disk), steps)
    ensures Filed(Exec(u, Init(disk), steps))
  {
    hide Enabled, Apply, Filed;
    if steps == [] {
      InitAllocated(disk);
    } else {
      var before, s := steps[..|steps| - 1], steps[|steps| - 1];
      FiledInEveryRun(u, disk, before);
      StepKeepsFiled(u, Exec(u, Init(disk), before), s);
    }
  }

  lemma InitAllocated(disk: map<Key, Bytes>)
    ensures Filed(Init(disk)) && Allocated(Init(disk))
  {
  }

  lemma StepKeepsFiled(u: Rules, w: World, s: Step)
    requires Filed(w) && Enabled(u, w, s)
    ensures Filed(Apply(u, w, s))
  {
    hide Filed, PlaceAt, Claimed, SlotFrom;
    if s.Place? {
      PlaceKeepsFiled(u, w, s.incoming, s.tmpl);
    } else if s.Unplace? {
      UnplaceKeepsFiled(w, s.path, s.rowGone, s.fileGone);
    } else {
      OtherStepsKeepNames(u, w, s);
      SameNamesKeepFiled(w, Apply(u, w, s));
    }
  }

  lemma UnplaceKeepsFiled(w: World, path: string, rowGone: bool, fileGone: bool)
    requires Filed(w)
    ensures Filed(Unplaced(w, path, rowGone, fileGone))
  {
    hide DiskKey, Rendered.Path;
  }

  // ---- reservations that are left behind ----

  /** The row goes that was the only one of its pair's reserved basename; the reservation stays. */
  predicate Empties(w: World, s: Step) {
    s.Unplace? && s.rowGone && s.path in w.files &&
    var r := w.files[s.path];
    var k := (r.device, r.pair);
    && k in w.pairs && Named(r, w.pairs[k].0, w.pairs[k].1)
    && forall p | p in w.files && p != s.path :: !Named(w.files[p], w.pairs[k].0, w.pairs[k].1)
  }

  lemma UnplaceKeepsAllocatedExactly(w: World, path: string, rowGone: bool, fileGone: bool)
    requires Allocated(w) && path in w.files
    ensures Allocated(Unplaced(w, path, rowGone, fileGone)) <==> !Empties(w, Unplace(path, rowGone, fileGone))
  {
    hide DiskKey, Rendered.Path, NameOk;
    var v, s := Unplaced(w, path, rowGone, fileGone), Unplace(path, rowGone, fileGone);
    var k := (w.files[path].device, w.files[path].pair);
    if Empties(w, s) {
      assert k in v.pairs && !Taken(v.files, v.pairs[k].0, v.pairs[k].1);
    } else if rowGone {
      forall j | j in v.pairs
        ensures Taken(v.files, v.pairs[j].0, v.pairs[j].1)
      {
        var p :| p in w.files && Named(w.files[p], w.pairs[j].0, w.pairs[j].1);
        if p == path {
          assert j == k;
          var q :| q in w.files && q != path && Named(w.files[q], w.pairs[j].0, w.pairs[j].1);
          assert q in v.files && Named(v.files[q], v.pairs[j].0, v.pairs[j].1);
        } else {
          assert p in v.files && Named(v.files[p], v.pairs[j].0, v.pairs[j].1);
        }
      }
      UnplaceKeepsFiled(w, path, rowGone, fileGone);
    } else {
      assert v.files == w.files && v.pairs == w.pairs;
    }
  }

  /** Every step but one keeps what the allocator promises, and that one never does. */
  lemma AllocatedKeptExactly(u: Rules, w: World, s: Step)
    requires Allocated(w) && Enabled(u, w, s)
    ensures Allocated(Apply(u, w, s)) <==> !Empties(w, s)
  {
    hide Allocated, PlaceAt, Claimed, SlotFrom;
    if s.Place? {
      PlaceKeepsAllocated(u, w, s.incoming, s.tmpl);
    } else if s.Unplace? {
      UnplaceKeepsAllocatedExactly(w, s.path, s.rowGone, s.fileGone);
    } else {
      OtherStepsKeepNames(u, w, s);
      SameNamesKeepAllocated(w, Apply(u, w, s));
    }
  }

  predicate AllocatedThroughout(u: Rules, w: World, steps: seq<Step>)
    requires Runs(u, w, steps)
    decreases |steps|
  {
    Allocated(Exec(u, w, steps)) && (steps == [] || AllocatedThroughout(u, w, steps[..|steps| - 1]))
  }

  predicate NeverEmptied(u: Rules, w: World, steps: seq<Step>)
    requires Runs(u, w, steps)
  {
    steps == [] ||
    (NeverEmptied(u, w, steps[..|steps| - 1]) && !Empties(Exec(u, w, steps[..|steps| - 1]), steps[|steps| - 1]))
  }

  /**
    The allocator's promises hold at every point of a run, whatever else happens to the receiver, if
    and only if no failed rename took away the only row of a basename that is reserved for a pair.
  */
  lemma {:induction false} AllocatedExactlyThroughout(u: Rules, disk: map<Key, Bytes>, steps: seq<Step>)
    requires Runs(u, Init(disk), steps)
    ensures AllocatedThroughout(u, Init(disk), steps) <==> NeverEmptied(u, Init(disk), steps)
  {
    hide Enabled, Apply, Allocated, Empties;
    if steps == [] {
      InitAllocated(disk);
    } else {
      var before := steps[..|steps| - 1];
      AllocatedExactlyThroughout(u, disk, before);
      if AllocatedThroughout(u, Init(disk), before) {
        AllocatedOfAll(u, Init(disk), before);
        AllocatedKeptExactly(u, Exec(u, Init(disk), before), steps[|steps| - 1]);
      }
    }
  }

  lemma AllocatedOfAll(u: Rules, w: World, steps: seq<Step>)
    requires Runs(u, w, steps) && AllocatedThroughout(u, w, steps)
    ensures Allocated(Exec(u, w, steps))
  {
    hide Allocated, Runs, Exec;
  }

  /** No step displaces a row: it keeps its path, its digest and its owner until its own rename fails. */
  lemma RowsStay(u: Rules, w: World, s: Step, p: string)
    requires Enabled(u, w, s) && p in w.files
    ensures p in Apply(u, w, s).files <==> !(s.Unplace? && s.path == p && s.rowGone)
    ensures p in Apply(u, w, s).files ==>
      Apply(u, w, s).files[p].(removed := false, attested := false) == w.files[p].(removed := false, attested := false)
  {
    hide DiskKey, SlotFrom, PlaceAt;
    if s.Place? {
      PlacedIsFree(u, w, s.incoming, s.tmpl);
    } else if !s.Unplace? {
      OtherStepsKeepNames(u, w, s);
    }
  }

  lemma ReservationStays(u: Rules, w: World, s: Step, k: (string, string))
    requires Enabled(u, w, s) && k in w.pairs
    ensures k in Apply(u, w, s).pairs && Apply(u, w, s).pairs[k] == w.pairs[k]
  {
    hide PlaceAt, DiskKey, SlotFrom, Target, ToDo;
  }

  /** A basename once reserved for a pair is reserved for it for good. */
  lemma {:induction false} ReservationsStay(u: Rules, w: World, steps: seq<Step>, k: (string, string))
    requires Runs(u, w, steps) && k in w.pairs
    ensures k in Exec(u, w, steps).pairs && Exec(u, w, steps).pairs[k] == w.pairs[k]
  {
    hide Enabled, Apply;
    if steps != [] {
      ReservationsStay(u, w, steps[..|steps| - 1], k);
      ReservationStays(u, Exec(u, w, steps[..|steps| - 1]), steps[|steps| - 1], k);
    }
  }

  lemma OwnNameIfFree(u: Rules, x: World, second: Incoming, tmpl: string)
    requires second.pair != "" && (second.device, second.pair) in x.pairs && u.render(tmpl, second.vars, 0).Ok?
    ensures var own := Own(x, (second.device, second.pair), u.render(tmpl, second.vars, 0).value.ext);
      PlaceAt(u, x, second, tmpl) == At(own) <==> Free(x.files, x.disk, own)
  {
    hide Search, Free;
    if PlaceAt(u, x, second, tmpl).At? {
      PlacedIsFree(u, x, second, tmpl);
    }
  }

  /** Two names of one basename and different extensions are different places. */
  lemma ExtensionsApart(n: Rendered, own: Rendered)
    requires NameOk(n) && NameOk(own) && n.dir == own.dir && n.base == own.base && n.ext != own.ext
    ensures n.Path() != own.Path() && DiskKey(n.Path()) != DiskKey(own.Path())
  {
    hide DiskKey, FileName;
    FileNameIsPlain(n);
    FileNameIsPlain(own);
    KeyOfResult(n);
    KeyOfResult(own);
    FileNamesDiffer(n.base, n.ext, own.ext);
    LastsDiffer(DiskKey(n.dir), FileName(n.base, n.ext), FileName(own.base, own.ext));
  }

  lemma LastsDiffer(dirs: seq<string>, a: string, b: string)
    requires a != b
    ensures dirs + [a] != dirs + [b]
  {
    assert (dirs + [a])[|dirs|] == a && (dirs + [b])[|dirs|] == b;
  }

  lemma FileNamesDiffer(base: string, a: string, b: string)
    requires a != b
    ensures FileName(base, a) != FileName(base, b)
  {
    if a != "" && b != "" {
      assert FileName(base, a)[|base| + 1..] == a && FileName(base, b)[|base| + 1..] == b;
    } else {
      assert |FileName(base, a)| != |FileName(base, b)|;
    }
  }

  lemma FileNameIsPlain(n: Rendered)
    requires NameOk(n)
    ensures '/' !in FileName(n.base, n.ext)
  {
    if n.ext != "" {
      assert FileName(n.base, n.ext) == n.base + ['.'] + n.ext;
    }
  }

  /**
    The members of a pair, in either order, with anything at all in between: other commits,
    conversions, crashes, a change of template. The first to arrive reserves its basename, the
    reservation never changes, and a later one gets that basename with its own extension exactly when
    that very path is free; a member with another extension is not what holds it.
  */
  lemma PairSharesBasename(
    u: Rules, w: World, first: Incoming, tmpl: string, between: seq<Step>, second: Incoming, tmpl2: string)
    requires Filed(w) && Enabled(u, w, Place(first, tmpl))
    requires first.pair != "" && second.device == first.device && second.pair == first.pair
    requires Runs(u, Apply(u, w, Place(first, tmpl)), between) && u.render(tmpl2, second.vars, 0).Ok?
    ensures var k, n := (first.device, first.pair), PlaceAt(u, w, first, tmpl).name;
      var x, ext := Exec(u, Apply(u, w, Place(first, tmpl)), between), u.render(tmpl2, second.vars, 0).value.ext;
      && k in x.pairs
      && x.pairs[k] == (if k in w.pairs then w.pairs[k] else (n.dir, n.base))
      && (PlaceAt(u, x, second, tmpl2) == At(Own(x, k, ext)) <==> Free(x.files, x.disk, Own(x, k, ext)))
      && (x.pairs[k] == (n.dir, n.base) && ext != n.ext ==>
            n.Path() != Own(x, k, ext).Path() && DiskKey(n.Path()) != DiskKey(Own(x, k, ext).Path()))
  {
    hide DiskKey, Search, Free, Filed, Runs, Exec, Rendered.Path, PlaceAt;
    var k, n := (first.device, first.pair), PlaceAt(u, w, first, tmpl).name;
    var v := Apply(u, w, Place(first, tmpl));
    ReservationsStay(u, v, between, k);
    var x := Exec(u, v, between);
    OwnNameIfFree(u, x, second, tmpl2);
    PlacedNameIsFree(u, w, first, tmpl);
    if x.pairs[k] == (n.dir, n.base) && u.render(tmpl2, second.vars, 0).value.ext != n.ext {
      RuledNameOk(u, tmpl2, second.vars, 0);
      ExtensionsApart(n, Own(x, k, u.render(tmpl2, second.vars, 0).value.ext));
    }
  }

  // ---- which name is handed out ----

  /** Some row has the basename in that directory, or the path is a row's, or something is there on disk. */
  predicate InUse(w: World, n: Rendered) {
    || (exists p | p in w.files :: w.files[p].name.dir == n.dir && w.files[p].name.base == n.base)
    || n.Path() in w.files || DiskKey(n.Path()) in w.disk
  }

  /** The counter gives a name, and that name is in use. */
  predicate PassedOver(u: Rules, w: World, tmpl: string, vars: Vars, c: nat) {
    u.render(tmpl, vars, c).Ok? && InUse(w, u.render(tmpl, vars, c).value)
  }

  /** The first counter that was not passed over. */
  predicate Settles(u: Rules, w: World, tmpl: string, vars: Vars, from: nat, c: nat) {
    from <= c < MAX_ATTEMPTS && !PassedOver(u, w, tmpl, vars, c) &&
    forall b: nat | from <= b < c :: PassedOver(u, w, tmpl, vars, b)
  }

  lemma {:induction false} SearchSettles(u: Rules, w: World, tmpl: string, vars: Vars, from: nat, c: nat)
    requires Settles(u, w, tmpl, vars, from, c)
    ensures Search(u, w.files, w.disk, tmpl, vars, from) == match u.render(tmpl, vars, c)
      case Ok(n) => At(n)
      case Err(e) => Unusable(e)
    decreases c - from
  {
    hide InUse, Taken, Free;
    InUseIsHeld(w);
    if from < c {
      assert PassedOver(u, w, tmpl, vars, from);
      SearchSettles(u, w, tmpl, vars, from + 1, c);
    }
  }

  lemma InUseIsHeld(w: World)
    ensures forall n :: InUse(w, n) <==> Taken(w.files, n.dir, n.base) || !Free(w.files, w.disk, n)
  {
    hide DiskKey, Rendered.Path;
    assert forall n: Rendered, p | p in w.files ::
        Named(w.files[p], n.dir, n.base) <==> w.files[p].name.dir == n.dir && w.files[p].name.base == n.base;
  }

  lemma {:induction false} SearchGivesUp(u: Rules, w: World, tmpl: string, vars: Vars, from: nat)
    requires from <= MAX_ATTEMPTS && forall c: nat | from <= c < MAX_ATTEMPTS :: PassedOver(u, w, tmpl, vars, c)
    ensures Search(u, w.files, w.disk, tmpl, vars, from) == NoSpace
    decreases MAX_ATTEMPTS - from
  {
    hide InUse, Taken, Free;
    InUseIsHeld(w);
    if from < MAX_ATTEMPTS {
      assert PassedOver(u, w, tmpl, vars, from);
      SearchGivesUp(u, w, tmpl, vars, from + 1);
    }
  }

  lemma {:induction false} SomeSettles(u: Rules, w: World, tmpl: string, vars: Vars, from: nat)
    requires from <= MAX_ATTEMPTS
    ensures (forall c: nat | from <= c < MAX_ATTEMPTS :: PassedOver(u, w, tmpl, vars, c)) ||
      exists c: nat :: Settles(u, w, tmpl, vars, from, c)
    decreases MAX_ATTEMPTS - from
  {
    hide PassedOver;
    if from < MAX_ATTEMPTS {
      if PassedOver(u, w, tmpl, vars, from) {
        var next := from + 1;
        SomeSettles(u, w, tmpl, vars, next);
        if exists c: nat :: Settles(u, w, tmpl, vars, next, c) {
          var c: nat :| Settles(u, w, tmpl, vars, next, c);
          assert Settles(u, w, tmpl, vars, from, c);
        }
      } else {
        assert Settles(u, w, tmpl, vars, from, from);
      }
    }
  }

  /** What the ten thousand candidates come to, told from the names they have and from what is in use. */
  predicate SearchedAs(u: Rules, w: World, tmpl: string, vars: Vars, r: Placement) {
    match r
    case At(n) =>
      exists c: nat | c < MAX_ATTEMPTS :: Settles(u, w, tmpl, vars, 0, c) && u.render(tmpl, vars, c) == Ok(n)
    case Unusable(e) =>
      exists c: nat | c < MAX_ATTEMPTS :: Settles(u, w, tmpl, vars, 0, c) && u.render(tmpl, vars, c) == Err(e)
    case NoSpace => forall c: nat | c < MAX_ATTEMPTS :: PassedOver(u, w, tmpl, vars, c)
  }

  lemma SearchedExactly(u: Rules, w: World, tmpl: string, vars: Vars, r: Placement)
    ensures Search(u, w.files, w.disk, tmpl, vars, 0) == r <==> SearchedAs(u, w, tmpl, vars, r)
  {
    hide PassedOver, Search;
    SomeSettles(u, w, tmpl, vars, 0);
    if forall c: nat | c < MAX_ATTEMPTS :: PassedOver(u, w, tmpl, vars, c) {
      SearchGivesUp(u, w, tmpl, vars, 0);
    } else {
      forall c: nat | Settles(u, w, tmpl, vars, 0, c) {
        SearchSettles(u, w, tmpl, vars, 0, c);
      }
    }
  }

  /**
    Which name a file is given. A later member of a pair has its pair's own name if that very path is
    free. Any other file has the name of the first counter whose name is not in use; it is refused as
    unusable exactly when the first counter that is not passed over gives no name, and for lack of
    space exactly when all ten thousand are passed over.
  */
  lemma PlacedExactly(u: Rules, w: World, inc: Incoming, tmpl: string, r: Placement)
    ensures PlaceAt(u, w, inc, tmpl) == r <==>
      var k, first := (inc.device, inc.pair), u.render(tmpl, inc.vars, 0);
      if inc.pair == "" || k !in w.pairs then SearchedAs(u, w, tmpl, inc.vars, r)
      else if first.Err? then r == Unusable(first.error)
      else
        var own := Own(w, k, first.value.ext);
        if own.Path() !in w.files && DiskKey(own.Path()) !in w.disk then r == At(own)
        else SearchedAs(u, w, tmpl, inc.vars, r)
  {
    hide SearchedAs, Search, DiskKey, Rendered.Path;
    SearchedExactly(u, w, tmpl, inc.vars, r);
  }

  // ---- giving up ----

  /** No two positive counters give one basename, and none changes anything else. */
  ghost predicate CountersApart(u: Rules, tmpl: string, vars: Vars) {
    forall a: nat, b: nat ::
      var x, y := u.render(tmpl, vars, a), u.render(tmpl, vars, b);
      && (x.Ok? <==> y.Ok?)
      && (x.Ok? ==> x.value.dir == y.value.dir && x.value.ext == y.value.ext)
      && (x.Ok? && 0 < a && 0 < b && a != b ==> x.value.base != y.value.base)
  }

  lemma CodeCountersApart(code: Unicode, tmpl: string, vars: Vars)
    requires !Contains(tmpl, COUNTER_KEY)
    ensures CountersApart(RulesOf(code), tmpl, vars)
  {
    hide Contains, Render;
    forall a: nat, b: nat {
      CountersDiffer(code, tmpl, vars, a, b);
    }
  }

  function BaseAt(u: Rules, tmpl: string, vars: Vars, c: nat): string {
    match u.render(tmpl, vars, c)
    case Ok(name) => name.base
    case Err(_) => ""
  }

  /** The basenames tried with counters 1 to n. */
  function Tried(u: Rules, tmpl: string, vars: Vars, n: nat): set<string> {
    set c: nat | 1 <= c <= n :: BaseAt(u, tmpl, vars, c)
  }

  lemma {:induction false} TriedAllDistinct(u: Rules, tmpl: string, vars: Vars, n: nat)
    requires CountersApart(u, tmpl, vars) && u.render(tmpl, vars, 0).Ok?
    ensures |Tried(u, tmpl, vars, n)| == n
  {
    if n == 0 {
      assert Tried(u, tmpl, vars, 0) == {};
    } else {
      TriedAllDistinct(u, tmpl, vars, n - 1);
      NotTriedBefore(u, tmpl, vars, n);
      assert Tried(u, tmpl, vars, n) == Tried(u, tmpl, vars, n - 1) + {BaseAt(u, tmpl, vars, n)} by {
        hide CountersApart, BaseAt;
      }
    }
  }

  lemma NotTriedBefore(u: Rules, tmpl: string, vars: Vars, n: nat)
    requires CountersApart(u, tmpl, vars) && u.render(tmpl, vars, 0).Ok? && n > 0
    ensures BaseAt(u, tmpl, vars, n) !in Tried(u, tmpl, vars, n - 1)
  {
    forall c: nat | 1 <= c <= n - 1
      ensures BaseAt(u, tmpl, vars, c) != BaseAt(u, tmpl, vars, n)
    {
      assert u.render(tmpl, vars, c).Ok? && u.render(tmpl, vars, n).Ok?;
    }
  }

  /** Giving up, for any way of naming whose counters count. */
  lemma ExhaustedMeansAllHeld(u: Rules, w: World, inc: Incoming, tmpl: string)
    requires PlaceAt(u, w, inc, tmpl) == NoSpace && CountersApart(u, tmpl, inc.vars)
    ensures u.render(tmpl, inc.vars, 0).Ok?
    ensures var first := u.render(tmpl, inc.vars, 0).value;
      var bases := Tried(u, tmpl, inc.vars, MAX_ATTEMPTS - 1);
      |bases| == 9_999 && forall b | b in bases :: InUse(w, Rendered(first.dir, b, first.ext))
  {
    hide InUse, Search;
    PlacedExactly(u, w, inc, tmpl, NoSpace);
    assert PassedOver(u, w, tmpl, inc.vars, 0);
    TriedAllDistinct(u, tmpl, inc.vars, MAX_ATTEMPTS - 1);
    var first := u.render(tmpl, inc.vars, 0).value;
    forall b | b in Tried(u, tmpl, inc.vars, MAX_ATTEMPTS - 1)
      ensures InUse(w, Rendered(first.dir, b, first.ext))
    {
      var c: nat :| 1 <= c <= MAX_ATTEMPTS - 1 && b == BaseAt(u, tmpl, inc.vars, c);
      assert PassedOver(u, w, tmpl, inc.vars, c);
      assert u.render(tmpl, inc.vars, c).value == Rendered(first.dir, b, first.ext);
    }
  }

  /**
    `place` reports "no free filename" only when 9,999 different basenames of one directory were
    each in use, by a row of the ledger or by a file on disk with the wanted extension.
  */
  lemma NoSpaceMeansAllHeld(code: Unicode, w: World, inc: Incoming, tmpl: string)
    requires PlaceAt(RulesOf(code), w, inc, tmpl) == NoSpace && !Contains(tmpl, COUNTER_KEY)
    ensures Render(code, tmpl, inc.vars, 0).Ok?
    ensures var first := Render(code, tmpl, inc.vars, 0).value;
      var bases := Tried(RulesOf(code), tmpl, inc.vars, MAX_ATTEMPTS - 1);
      |bases| == 9_999 && forall b | b in bases :: InUse(w, Rendered(first.dir, b, first.ext))
  {
    hide Contains, Render, PlaceAt, InUse, Tried, RulesOf, CountersApart;
    CodeCountersApart(code, tmpl, inc.vars);
    ExhaustedMeansAllHeld(RulesOf(code), w, inc, tmpl);
  }
}
