/** In which orders schema files can be loaded, and what that decides. */
module SchemaOrder {
  import opened Common
  import opened ProtoSyntax
  import opened NameResolution

  /** A schema file as the loader meets it: broken, or with the names it declares and
      its references in the order they are resolved. */
  datatype File = Broken(text: string) | File(text: string, names: Names, refs: seq<Reference>)

  /** What can be looked up before any file is loaded. */
  datatype Root = Root(base: Names, customs: set<string>)

  function NamesIn(f: File): Names {
    if f.Broken? then map[] else f.names
  }

  /** What a loaded file lets others look up: its messages and enums. */
  function Visible(f: File): Names {
    map s | s in NamesIn(f) && NamesIn(f)[s] != IsService :: NamesIn(f)[s]
  }

  function Known(root: Root, order: seq<File>): Names {
    if order == [] then root.base else Known(root, order[..|order| - 1]) + Visible(order[|order| - 1])
  }

  /** Adding a file when `known` can be looked up: it is added, set aside because a
      type is unknown, or the whole load fails. */
  function Attempt(root: Root, known: Names, f: File): Verdict {
    if f.Broken? then Wrong else FirstFailure(World(f.names, known, root.customs), f.refs)
  }

  /** Full names are unique across files, and none is taken before. */
  ghost predicate Tidy(root: Root, files: seq<File>) {
    && (forall s :: s in root.base ==> root.base[s] != IsService)
    && (forall f, s :: f in files && s in NamesIn(f) ==> s !in root.base)
    && (forall f, g, s :: f in files && g in files && s in NamesIn(f) && s in NamesIn(g) ==> f == g)
  }

  /** One after the other, every file can be added. */
  predicate InOrder(root: Root, order: seq<File>) {
    forall i :: 0 <= i < |order| ==> Attempt(root, Known(root, order[..i]), order[i]) == Fine
  }

  ghost predicate Within(order: seq<File>, files: seq<File>) {
    forall f :: f in order ==> f in files
  }

  predicate NoRepeats(order: seq<File>) {
    forall i, j :: 0 <= i < j < |order| ==> order[i] != order[j]
  }

  /** A state the loader can be in: these files, added in this order. */
  ghost predicate Partial(root: Root, files: seq<File>, order: seq<File>) {
    Within(order, files) && NoRepeats(order) && InOrder(root, order)
  }

  ghost predicate Resolving(root: Root, files: seq<File>, order: seq<File>) {
    Partial(root, files, order) && Within(files, order)
  }

  /** Some order of exactly these files resolves every reference. */
  ghost predicate Loadable(root: Root, files: seq<File>) {
    exists order :: Resolving(root, files, order)
  }

  // ---- the loader as a function ----

  datatype Sweep = Swept(order: seq<File>, aside: seq<File>) | Failed

  /** One pass over the pending files. */
  function Pass(root: Root, order: seq<File>, pending: seq<File>): Sweep
    decreases pending
  {
    if pending == [] then Swept(order, [])
    else if pending[0] in order then Pass(root, order, pending[1..])
    else match Attempt(root, Known(root, order), pending[0])
      case Fine => Pass(root, order + [pending[0]], pending[1..])
      case Wrong => Failed
      case Unknown =>
        match Pass(root, order, pending[1..])
        case Failed => Failed
        case Swept(o, aside) => Swept(o, [pending[0]] + aside)
  }

  lemma {:induction false} PassShrinks(root: Root, order: seq<File>, pending: seq<File>)
    ensures var s := Pass(root, order, pending); s.Swept? ==> |s.aside| <= |pending|
    decreases pending
  {
    if pending != [] {
      PassShrinks(root, order, pending[1..]);
      PassShrinks(root, order + [pending[0]], pending[1..]);
    }
  }

  /** Passes until nothing is pending, or one gets nowhere. */
  function Load(root: Root, order: seq<File>, pending: seq<File>): Option<seq<File>>
    decreases |pending|
  {
    PassShrinks(root, order, pending);
    if pending == [] then Some(order)
    else match Pass(root, order, pending)
      case Failed => None
      case Swept(o, aside) => if |aside| == |pending| then None else Load(root, o, aside)
  }

  predicate Succeeds(root: Root, files: seq<File>) {
    Load(root, [], files).Some?
  }

  lemma KnownNext(root: Root, order: seq<File>, f: File)
    ensures Known(root, order + [f]) == Known(root, order) + Visible(f)
  {
    assert (order + [f])[..|order|] == order;
  }

  /** Adding a file that fits leads from one state to the next. */
  lemma PartialNext(root: Root, files: seq<File>, order: seq<File>, f: File)
    requires Partial(root, files, order) && f in files && f !in order
    requires Attempt(root, Known(root, order), f) == Fine
    ensures Partial(root, files, order + [f])
  {
    var next := order + [f];
    forall i | 0 <= i < |next|
      ensures Attempt(root, Known(root, next[..i]), next[i]) == Fine
    {
      assert next[..i] == order[..i];
      if i == |order| { assert order[..i] == order; }
    }
  }

  lemma {:induction false} PassKeeps(root: Root, files: seq<File>, order: seq<File>, pending: seq<File>)
    requires Partial(root, files, order) && Within(pending, files)
    ensures var s := Pass(root, order, pending);
      s.Swept? ==>
        && Partial(root, files, s.order) && Within(order, s.order)
        && Within(s.aside, pending) && |s.aside| <= |pending|
        && (forall f :: f in pending ==> f in s.order || f in s.aside)
        && (|s.aside| == |pending| ==>
              s.order == order && s.aside == pending
              && forall f :: f in pending ==> f !in order && Attempt(root, Known(root, order), f) == Unknown)
    decreases pending
  {
    if pending != [] {
      var f, rest := pending[0], pending[1..];
      assert pending == [f] + rest;
      if f in order || Attempt(root, Known(root, order), f) == Unknown {
        PassKeeps(root, files, order, rest);
      } else if Attempt(root, Known(root, order), f) == Fine {
        PartialNext(root, files, order, f);
        PassKeeps(root, files, order + [f], rest);
      }
    }
  }

  lemma {:induction false} LoadKeeps(root: Root, files: seq<File>, order: seq<File>, pending: seq<File>)
    requires Partial(root, files, order) && Within(pending, files)
    requires forall f :: f in files ==> f in order || f in pending
    ensures var r := Load(root, order, pending); r.Some? ==> Resolving(root, files, r.value)
    decreases |pending|
  {
    PassKeeps(root, files, order, pending);
    var s := Pass(root, order, pending);
    if pending != [] && s.Swept? && |s.aside| < |pending| {
      LoadKeeps(root, files, s.order, s.aside);
    }
  }

  /** A load that succeeds has found an order that resolves everything. */
  lemma SucceedsLoads(root: Root, files: seq<File>)
    requires Succeeds(root, files)
    ensures Loadable(root, files) && Resolving(root, files, Load(root, [], files).value)
  {
    LoadKeeps(root, files, [], files);
  }

  // ---- listings ----

  ghost predicate SameFiles(a: seq<File>, b: seq<File>) {
    Within(a, b) && Within(b, a)
  }

  /** A resolving order, given as the listing, is loaded in one pass, and so is any
      beginning of one before the pass goes on. */
  lemma {:induction false} PassAlong(root: Root, files: seq<File>, order: seq<File>, k: nat, rest: seq<File>)
    requires Partial(root, files, order) && k <= |order|
    ensures Pass(root, order[..k], order[k..] + rest) == Pass(root, order, rest)
    decreases |order| - k
  {
    if k == |order| {
      assert order[..k] == order && order[k..] + rest == rest;
    } else {
      var pending := order[k..] + rest;
      assert pending[0] == order[k] && pending[1..] == order[k + 1..] + rest;
      assert order[..k + 1] == order[..k] + [order[k]];
      assert order[k] !in order[..k];
      PassAlong(root, files, order, k + 1, rest);
    }
  }

  lemma ListedInOrder(root: Root, files: seq<File>, order: seq<File>, rest: seq<File>)
    requires Partial(root, files, order)
    ensures Pass(root, [], order + rest) == Pass(root, order, rest)
  {
    PassAlong(root, files, order, 0, rest);
    assert order[..0] == [] && order[0..] == order;
  }

  /** Loadable files are loaded when they are listed in a resolving order. */
  lemma SomeListingSucceeds(root: Root, files: seq<File>, order: seq<File>)
    requires Resolving(root, files, order)
    ensures SameFiles(order, files) && Succeeds(root, order)
  {
    ListedInOrder(root, files, order, []);
    assert order + [] == order;
  }

  /** A state from which the load can fail: some file would fail it at once, or files
      are missing and none of them can be added. */
  ghost predicate DeadEnd(root: Root, files: seq<File>, order: seq<File>) {
    && Partial(root, files, order)
    && (|| (exists f :: f in files && f !in order && Attempt(root, Known(root, order), f) == Wrong)
        || (&& !Within(files, order)
            && forall f :: f in files && f !in order ==> Attempt(root, Known(root, order), f) != Fine))
  }

  /** Files none of which can be added any more are never loaded. */
  lemma {:induction false} StuckPass(root: Root, order: seq<File>, pending: seq<File>)
    requires forall f :: f in pending && f !in order ==> Attempt(root, Known(root, order), f) != Fine
    ensures var s := Pass(root, order, pending);
      s.Swept? ==> s.order == order && forall f :: f in s.aside <==> f in pending && f !in order
    decreases pending
  {
    if pending != [] {
      assert pending == [pending[0]] + pending[1..];
      StuckPass(root, order, pending[1..]);
    }
  }

  lemma {:induction false} StuckLoad(root: Root, order: seq<File>, pending: seq<File>)
    requires forall f :: f in pending && f !in order ==> Attempt(root, Known(root, order), f) != Fine
    requires exists f :: f in pending && f !in order
    ensures Load(root, order, pending) == None
    decreases |pending|
  {
    StuckPass(root, order, pending);
    PassShrinks(root, order, pending);
    var s := Pass(root, order, pending);
    if s.Swept? && |s.aside| < |pending| {
      var f :| f in pending && f !in order;
      assert f in s.aside;
      StuckLoad(root, order, s.aside);
    }
  }

  /** Every dead end is met by some listing. */
  lemma DeadEndFails(root: Root, files: seq<File>, order: seq<File>) returns (listing: seq<File>)
    requires DeadEnd(root, files, order)
    ensures SameFiles(listing, files) && !Succeeds(root, listing)
  {
    if f :| f in files && f !in order && Attempt(root, Known(root, order), f) == Wrong {
      listing := order + ([f] + files);
      ListedInOrder(root, files, order, [f] + files);
      assert ([f] + files)[0] == f;
    } else {
      listing := order + files;
      ListedInOrder(root, files, order, files);
      var f :| f in files && f !in order;
      StuckPass(root, order, files);
      PassShrinks(root, [], listing);
      var s := Pass(root, [], listing);
      if s.Swept? {
        assert f in s.aside;
        StuckLoad(root, order, s.aside);
      }
    }
  }

  lemma {:induction false} PassNeverFails(root: Root, files: seq<File>, order: seq<File>, pending: seq<File>)
    requires Partial(root, files, order) && Within(pending, files)
    requires forall o :: !DeadEnd(root, files, o)
    ensures Pass(root, order, pending).Swept?
    decreases pending
  {
    if pending != [] {
      var f := pending[0];
      if f !in order {
        assert !DeadEnd(root, files, order);
        if Attempt(root, Known(root, order), f) == Fine {
          PartialNext(root, files, order, f);
          PassNeverFails(root, files, order + [f], pending[1..]);
        } else {
          PassNeverFails(root, files, order, pending[1..]);
        }
      } else {
        PassNeverFails(root, files, order, pending[1..]);
      }
    }
  }

  lemma StuckIsDeadEnd(root: Root, files: seq<File>, order: seq<File>, pending: seq<File>)
    requires Partial(root, files, order) && Within(pending, files) && pending != []
    requires forall f :: f in files ==> f in order || f in pending
    requires forall f :: f in pending ==> f !in order && Attempt(root, Known(root, order), f) == Unknown
    ensures DeadEnd(root, files, order)
  {
    assert pending[0] in pending;
  }

  lemma {:induction false} LoadNeverFails(root: Root, files: seq<File>, order: seq<File>, pending: seq<File>)
    requires Partial(root, files, order) && Within(pending, files)
    requires forall f :: f in files ==> f in order || f in pending
    requires forall o :: !DeadEnd(root, files, o)
    ensures Load(root, order, pending).Some?
    decreases |pending|
  {
    if pending != [] {
      PassNeverFails(root, files, order, pending);
      PassKeeps(root, files, order, pending);
      var s := Pass(root, order, pending);
      if |s.aside| == |pending| {
        StuckIsDeadEnd(root, files, order, pending);
      } else {
        LoadNeverFails(root, files, s.order, s.aside);
      }
    }
  }

  ghost predicate OrderFree(root: Root, files: seq<File>) {
    forall a, b :: SameFiles(a, files) && SameFiles(b, files) ==> (Succeeds(root, a) <==> Succeeds(root, b))
  }

  /** For every collection of files: whether they load is the same however they are
      listed if and only if no order of them resolves everything, or no state the
      loader can reach is a dead end. */
  lemma FreeOfOrder(root: Root, files: seq<File>)
    ensures OrderFree(root, files) <==> !Loadable(root, files) || forall order :: !DeadEnd(root, files, order)
  {
    if !Loadable(root, files) {
      forall a | SameFiles(a, files)
        ensures !Succeeds(root, a)
      {
        if Succeeds(root, a) {
          SucceedsLoads(root, a);
          assert Resolving(root, files, Load(root, [], a).value);
        }
      }
    } else if order :| DeadEnd(root, files, order) {
      var bad := DeadEndFails(root, files, order);
      var good :| Resolving(root, files, good);
      SomeListingSucceeds(root, files, good);
      assert SameFiles(good, files) && SameFiles(bad, files);
    } else {
      forall a | SameFiles(a, files)
        ensures Succeeds(root, a)
      {
        LoadNeverFails(root, files, [], a);
      }
    }
  }
}
