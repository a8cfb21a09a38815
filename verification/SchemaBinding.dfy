/** When later files cannot undo what earlier ones resolved: then loading succeeds
    exactly when some order does, and which name a reference gets can be decided. */
module SchemaBinding {
  import opened Common
  import opened ProtoSyntax
  import opened NameResolution
  import opened SchemaOrder

  ghost predicate Sub(k: Names, l: Names) {
    forall s :: s in k ==> s in l && l[s] == k[s]
  }

  /** What can be looked up is the base and what the files of the order declare. */
  lemma {:induction false} KnownIs(root: Root, files: seq<File>, order: seq<File>)
    requires Tidy(root, files) && Within(order, files)
    ensures Sub(root.base, Known(root, order))
    ensures forall f :: f in order ==> Sub(Visible(f), Known(root, order))
    ensures forall s :: s in Known(root, order) ==> s in root.base || exists f :: f in order && s in Visible(f)
  {
    if order != [] {
      var before, last := order[..|order| - 1], order[|order| - 1];
      assert order == before + [last];
      KnownIs(root, files, before);
      forall s | s in root.base
        ensures s in Known(root, order) && Known(root, order)[s] == root.base[s]
      {
        assert last in files;
      }
      forall f, s | f in order && s in Visible(f)
        ensures s in Known(root, order) && Known(root, order)[s] == Visible(f)[s]
      {
        if s in Visible(last) { assert f in files && last in files && f == last; } else { assert f in before; }
      }
    }
  }

  /** More files, more names; never other ones. */
  lemma KnownGrows(root: Root, files: seq<File>, order: seq<File>, more: seq<File>)
    requires Tidy(root, files) && Within(order, more) && Within(more, files)
    ensures Sub(root.base, Known(root, order)) && Sub(Known(root, order), Known(root, more))
  {
    KnownIs(root, files, order);
    KnownIs(root, files, more);
    forall s | s in Known(root, order)
      ensures s in Known(root, more) && Known(root, more)[s] == Known(root, order)[s]
    {
      if s !in root.base {
        var f :| f in order && s in Visible(f);
        assert Sub(Visible(f), Known(root, order)) && Sub(Visible(f), Known(root, more));
      }
    }
  }

  // ---- the static condition ----

  /** Neither the file itself nor the base fixes any of the first `j` candidates. */
  predicate Free(root: Root, own: Names, cs: seq<string>, j: nat)
    requires j <= |cs|
  {
    forall h :: 0 <= h < j ==> cs[h] !in own && cs[h] !in root.base
  }

  /** Another file's name cannot come between the reference and what it needs: no enum
      inside of a message that an rpc argument can stand for, and nothing inside of a
      service of the file's own that a field would stand for. */
  predicate SteadyRef(root: Root, all: Names, own: Names, r: Reference) {
    var cs := Candidates(r);
    forall i, j :: 0 <= i < j < |cs| && Free(root, own, cs, j) && cs[i] in all ==>
      match r
      case ArgumentRef(_, _) =>
        all[cs[i]] == IsMessage || World(own, all, root.customs).KindOf(cs[j]) != Some(IsMessage)
      case FieldRef(_, _) => !(cs[j] in own && own[cs[j]] == IsService)
  }

  ghost predicate Steady(root: Root, files: seq<File>) {
    forall f, r :: f in files && f.File? && r in f.refs ==> SteadyRef(root, Known(root, files), f.names, r)
  }

  /** How a reference fares when `known` can be looked up. */
  function Fares(root: Root, known: Names, own: Names, r: Reference): Verdict {
    Judge(World(own, known, root.customs), r)
  }

  /** What resolves goes on resolving as more becomes known. */
  lemma RefGrows(root: Root, all: Names, own: Names, r: Reference, known: Names, more: Names)
    requires SteadyRef(root, all, own, r) && Sub(root.base, known) && Sub(known, more) && Sub(more, all)
    requires forall s :: s in all ==> all[s] != IsService
    requires Fares(root, known, own, r) == Fine
    ensures Fares(root, more, own, r) == Fine
  {
    var w, x := World(own, known, root.customs), World(own, more, root.customs);
    ResolvesFirst(w, r);
    ResolvesFirst(x, r);
    var cs := Candidates(r);
    var j, i := FirstKnown(w, cs), FirstKnown(x, cs);
    if i < j {
      assert w.KindOf(cs[i]) == None && cs[i] in more && cs[i] in all;
      if j < |cs| {
        assert Free(root, own, cs, j) by {
          assert forall h :: 0 <= h < j ==> w.KindOf(cs[h]) == None;
        }
      }
    }
  }

  /** What is an error at once stays one whatever else is known. */
  lemma RefStaysWrong(root: Root, all: Names, own: Names, r: Reference, known: Names, other: Names)
    requires SteadyRef(root, all, own, r)
    requires Sub(root.base, known) && Sub(known, all) && Sub(root.base, other) && Sub(other, all)
    requires forall s :: s in all ==> all[s] != IsService
    requires Fares(root, known, own, r) == Wrong
    ensures Fares(root, other, own, r) == Wrong
  {
    var w, x := World(own, known, root.customs), World(own, other, root.customs);
    ResolvesFirst(w, r);
    ResolvesFirst(x, r);
    var cs := Candidates(r);
    var j, i := FirstKnown(w, cs), FirstKnown(x, cs);
    assert cs[j] in own && own[cs[j]] == IsService;
    assert Free(root, own, cs, j) by {
      assert forall h :: 0 <= h < j ==> w.KindOf(cs[h]) == None;
    }
    assert forall h :: 0 <= h < j ==> cs[h] !in all;
  }

  ghost predicate NoServices(all: Names) {
    forall s :: s in all ==> all[s] != IsService
  }

  lemma KnownHasNoServices(root: Root, files: seq<File>)
    requires Tidy(root, files)
    ensures NoServices(Known(root, files))
  {
    KnownIs(root, files, files);
  }

  lemma FileGrows(root: Root, files: seq<File>, f: File, order: seq<File>, more: seq<File>)
    requires Tidy(root, files) && Steady(root, files) && f in files
    requires Within(order, more) && Within(more, files)
    requires Attempt(root, Known(root, order), f) == Fine
    ensures Attempt(root, Known(root, more), f) == Fine
  {
    var all, known, grown := Known(root, files), Known(root, order), Known(root, more);
    KnownHasNoServices(root, files);
    KnownGrows(root, files, order, more);
    KnownGrows(root, files, more, files);
    FirstFailureIs(World(f.names, known, root.customs), f.refs);
    FirstFailureIs(World(f.names, grown, root.customs), f.refs);
    forall r | r in f.refs
      ensures Fares(root, grown, f.names, r) == Fine
    {
      assert Fares(root, known, f.names, r) == Fine;
      RefGrows(root, all, f.names, r, known, grown);
    }
  }

  lemma FileStaysWrong(root: Root, files: seq<File>, f: File, order: seq<File>, other: seq<File>)
    requires Tidy(root, files) && Steady(root, files) && f in files
    requires Within(order, files) && Within(other, files)
    requires Attempt(root, Known(root, order), f) == Wrong
    ensures Attempt(root, Known(root, other), f) != Fine
  {
    if f.File? {
      var all, known, away := Known(root, files), Known(root, order), Known(root, other);
      KnownHasNoServices(root, files);
      KnownGrows(root, files, order, files);
      KnownGrows(root, files, other, files);
      FirstFailureIs(World(f.names, known, root.customs), f.refs);
      FirstFailureIs(World(f.names, away, root.customs), f.refs);
      var r :| r in f.refs && Fares(root, known, f.names, r) == Wrong;
      RefStaysWrong(root, all, f.names, r, known, away);
    }
  }

  // ---- loading, under the static condition ----

  lemma {:induction false} FirstMissing(best: seq<File>, order: seq<File>, missing: File) returns (k: nat)
    requires missing in best && missing !in order
    ensures k < |best| && best[k] !in order && Within(best[..k], order)
  {
    k := 0;
    while best[k] in order
      invariant k < |best| && Within(best[..k], order) && missing in best[k..]
      decreases |best| - k
    {
      assert best[k..] == [best[k]] + best[k + 1..];
      assert best[..k + 1] == best[..k] + [best[k]];
      k := k + 1;
    }
  }

  /** If some order resolves everything, then in every state that lacks a file some
      missing file can be added. */
  lemma SomeMissingFits(root: Root, files: seq<File>, order: seq<File>) returns (f: File)
    requires Tidy(root, files) && Steady(root, files) && Loadable(root, files)
    requires Partial(root, files, order) && !Within(files, order)
    ensures f in files && f !in order && Attempt(root, Known(root, order), f) == Fine
  {
    var best :| Resolving(root, files, best);
    var missing :| missing in files && missing !in order;
    var k := FirstMissing(best, order, missing);
    f := best[k];
    FileGrows(root, files, f, best[..k], order);
  }

  /** Under the static condition the loader has no dead ends. */
  lemma SteadyHasNoDeadEnd(root: Root, files: seq<File>, order: seq<File>)
    requires Tidy(root, files) && Steady(root, files) && Loadable(root, files)
    ensures !DeadEnd(root, files, order)
  {
    if Partial(root, files, order) {
      var best :| Resolving(root, files, best);
      forall f | f in files && f !in order
        ensures Attempt(root, Known(root, order), f) != Wrong
      {
        var i :| 0 <= i < |best| && best[i] == f;
        if Attempt(root, Known(root, order), f) == Wrong {
          FileStaysWrong(root, files, f, order, best[..i]);
        }
      }
      if !Within(files, order) {
        var f := SomeMissingFits(root, files, order);
      }
    }
  }

  /** Under the static condition files load, however they are listed, exactly when
      some order of them resolves every reference. */
  lemma SteadyLoads(root: Root, files: seq<File>)
    requires Tidy(root, files) && Steady(root, files)
    ensures Succeeds(root, files) <==> Loadable(root, files)
    ensures OrderFree(root, files)
  {
    FreeOfOrder(root, files);
    if Loadable(root, files) {
      forall order
        ensures !DeadEnd(root, files, order)
      {
        SteadyHasNoDeadEnd(root, files, order);
      }
      LoadNeverFails(root, files, [], files);
    } else if Succeeds(root, files) {
      SucceedsLoads(root, files);
    }
  }

  // ---- the static condition is exact ----

  lemma OutwardNext(name: string, scope: string, j: nat)
    requires scope != "" && 0 < j < |Outward(name, scope)|
    ensures j - 1 < |Outward(name, Outer(scope))| && Outward(name, scope)[j] == Outward(name, Outer(scope))[j - 1]
  {
  }

  lemma {:induction false} OutwardShrinks(name: string, scope: string, i: nat, j: nat)
    requires i < j < |Outward(name, scope)|
    ensures |Outward(name, scope)[j]| < |Outward(name, scope)[i]|
    decreases |scope|
  {
    if scope != "" {
      OutwardNext(name, scope, j);
      if i > 0 {
        OutwardNext(name, scope, i);
        OutwardShrinks(name, Outer(scope), i - 1, j - 1);
      } else {
        OutwardAtMost(name, Outer(scope), j - 1);
      }
    }
  }

  lemma {:induction false} OutwardAtMost(name: string, scope: string, j: nat)
    requires j < |Outward(name, scope)|
    ensures |Outward(name, scope)[j]| <= |Qualify(scope, name)|
    decreases |scope|
  {
    if j > 0 && scope != "" {
      OutwardNext(name, scope, j);
      OutwardAtMost(name, Outer(scope), j - 1);
    }
  }

  /** No candidate comes twice. */
  lemma CandidatesDiffer(r: Reference)
    ensures forall i, j :: 0 <= i < j < |Candidates(r)| ==> Candidates(r)[i] != Candidates(r)[j]
  {
    if !(r.name != "" && r.name[0] == '.') {
      forall i, j | 0 <= i < j < |Candidates(r)|
        ensures Candidates(r)[i] != Candidates(r)[j]
      {
        OutwardShrinks(r.name, r.scope, i, j);
      }
    }
  }

  /** Nothing that other files may add changes a verdict that is not `Unknown`. */
  ghost predicate Lasting(root: Root, all: Names, own: Names, r: Reference) {
    forall known, more :: Sub(root.base, known) && Sub(known, more) && Sub(more, all) ==>
      Fares(root, known, own, r) != Unknown ==> Fares(root, more, own, r) == Fares(root, known, own, r)
  }

  /** The static condition holds of a reference if and only if its verdicts last. */
  lemma SteadyIsExact(root: Root, all: Names, own: Names, r: Reference)
    requires Sub(root.base, all) && NoServices(all)
    ensures SteadyRef(root, all, own, r) <==> Lasting(root, all, own, r)
  {
    if SteadyRef(root, all, own, r) {
      forall known, more | Sub(root.base, known) && Sub(known, more) && Sub(more, all)
        ensures Fares(root, known, own, r) != Unknown ==> Fares(root, more, own, r) == Fares(root, known, own, r)
      {
        if Fares(root, known, own, r) == Fine { RefGrows(root, all, own, r, known, more); }
        if Fares(root, known, own, r) == Wrong { RefStaysWrong(root, all, own, r, known, more); }
      }
    } else {
      var cs := Candidates(r);
      var i, j :| 0 <= i < j < |cs| && Free(root, own, cs, j) && cs[i] in all
        && !match r
            case ArgumentRef(_, _) =>
              all[cs[i]] == IsMessage || World(own, all, root.customs).KindOf(cs[j]) != Some(IsMessage)
            case FieldRef(_, _) => !(cs[j] in own && own[cs[j]] == IsService);
      Overturned(root, all, own, r, i, j);
    }
  }

  /** The names that overturn an unsteady reference: what it resolves with, then one
      further in. */
  lemma Overturned(root: Root, all: Names, own: Names, r: Reference, i: nat, j: nat)
    requires Sub(root.base, all) && NoServices(all)
    requires i < j < |Candidates(r)| && Free(root, own, Candidates(r), j) && Candidates(r)[i] in all
    requires match r
      case ArgumentRef(_, _) =>
        all[Candidates(r)[i]] != IsMessage && World(own, all, root.customs).KindOf(Candidates(r)[j]) == Some(IsMessage)
      case FieldRef(_, _) => Candidates(r)[j] in own && own[Candidates(r)[j]] == IsService
    ensures !Lasting(root, all, own, r)
  {
    var cs := Candidates(r);
    var known := if cs[j] in all then root.base[cs[j] := all[cs[j]]] else root.base;
    var more := known[cs[i] := all[cs[i]]];
    CandidatesDiffer(r);
    FirstIs(World(own, known, root.customs), r, j);
    FirstIs(World(own, more, root.customs), r, i);
    assert Sub(root.base, known) && Sub(known, more) && Sub(more, all);
    assert Fares(root, known, own, r) != Unknown && Fares(root, more, own, r) != Fares(root, known, own, r);
  }

  lemma FirstIs(w: World, r: Reference, j: nat)
    requires j < |Candidates(r)| && w.KindOf(Candidates(r)[j]).Some?
    requires forall h :: 0 <= h < j ==> w.KindOf(Candidates(r)[h]) == None
    ensures ResolveName(w, r.name, r.scope) == Some((w.KindOf(Candidates(r)[j]).value, Candidates(r)[j]))
  {
    ResolvesFirst(w, r);
    assert FirstKnown(w, Candidates(r)) == j;
  }

  // ---- which name a reference gets ----

  /** What a reference of `f` is bound to when `known` can be looked up. */
  function Binding(root: Root, f: File, r: Reference, known: Names): Option<(DeclKind, string)> {
    ResolveName(World(NamesIn(f), known, root.customs), r.name, r.scope)
  }

  ghost predicate BoundIn(root: Root, files: seq<File>, f: File, r: Reference, order: seq<File>, i: nat,
                          b: Option<(DeclKind, string)>) {
    && Resolving(root, files, order)
    && i < |order| && order[i] == f
    && b == Binding(root, f, r, Known(root, order[..i]))
  }

  /** The reference is bound to the same name in every resolving order. */
  ghost predicate Settled(root: Root, files: seq<File>, f: File, r: Reference) {
    forall o, i, b, p, j, c :: BoundIn(root, files, f, r, o, i, b) && BoundIn(root, files, f, r, p, j, c) ==> b == c
  }

  /** Everything that can be loaded before `f` is, in some order. */
  ghost predicate AllBefore(root: Root, files: seq<File>, f: File, order: seq<File>) {
    && Partial(root, files, order) && f !in order
    && forall g :: g in files && g != f && g !in order ==> Attempt(root, Known(root, order), g) != Fine
  }

  /** `f` can be loaded before `g` is. */
  ghost predicate CanPrecede(root: Root, files: seq<File>, f: File, g: File) {
    exists order :: Partial(root, files, order) && f in order && g !in order
  }

  lemma PartialPrefix(root: Root, files: seq<File>, order: seq<File>, k: nat)
    requires Partial(root, files, order) && k <= |order|
    ensures Partial(root, files, order[..k])
  {
    forall i | 0 <= i < k
      ensures Attempt(root, Known(root, order[..k][..i]), order[..k][i]) == Fine
    {
      assert order[..k][..i] == order[..i];
    }
  }

  function Missing(files: seq<File>, order: seq<File>): nat {
    if files == [] then 0 else (if files[0] in order then 0 else 1) + Missing(files[1..], order)
  }

  lemma {:induction false} MissingShrinks(files: seq<File>, order: seq<File>, f: File)
    ensures Missing(files, order + [f]) <= Missing(files, order)
    ensures f in files && f !in order ==> Missing(files, order + [f]) < Missing(files, order)
    decreases files
  {
    if files != [] { MissingShrinks(files[1..], order, f); }
  }

  /** Under the static condition every state extends to a resolving order. */
  lemma {:induction false} Extends(root: Root, files: seq<File>, order: seq<File>) returns (whole: seq<File>)
    requires Tidy(root, files) && Steady(root, files) && Loadable(root, files) && Partial(root, files, order)
    ensures Resolving(root, files, whole) && order <= whole
    decreases Missing(files, order)
  {
    if Within(files, order) {
      whole := order;
    } else {
      var f := SomeMissingFits(root, files, order);
      PartialNext(root, files, order, f);
      MissingShrinks(files, order, f);
      whole := Extends(root, files, order + [f]);
    }
  }

  /** Such a largest beginning exists. */
  lemma {:induction false} AllBeforeExists(root: Root, files: seq<File>, f: File, order: seq<File>)
    returns (most: seq<File>)
    requires Partial(root, files, order) && f !in order
    ensures AllBefore(root, files, f, most) && order <= most
    decreases Missing(files, order)
  {
    if g :| g in files && g != f && g !in order && Attempt(root, Known(root, order), g) == Fine {
      PartialNext(root, files, order, g);
      MissingShrinks(files, order, g);
      most := AllBeforeExists(root, files, f, order + [g]);
    } else {
      most := order;
    }
  }

  /** Whatever is loaded before `f` in any order is among what can be. */
  lemma BeforeIsWithin(root: Root, files: seq<File>, f: File, most: seq<File>, order: seq<File>)
    requires Tidy(root, files) && Steady(root, files)
    requires AllBefore(root, files, f, most) && Partial(root, files, order) && f !in order
    ensures Within(order, most)
  {
    if g :| g in order && g !in most {
      var k := FirstMissing(order, most, g);
      FileGrows(root, files, order[k], order[..k], most);
    }
  }

  /** With fewer names around, the binding is the same if its name is still known, and
      something else if it is not. */
  lemma BindingWithFewer(root: Root, f: File, r: Reference, known: Names, more: Names)
    requires Sub(known, more)
    ensures var b := Binding(root, f, r, more);
      && (b == None ==> Binding(root, f, r, known) == None)
      && (b.Some? ==> (Binding(root, f, r, known) == b <==> b.value.1 in NamesIn(f) || b.value.1 in known))
  {
    var w, x := World(NamesIn(f), known, root.customs), World(NamesIn(f), more, root.customs);
    ResolvesFirst(w, r);
    ResolvesFirst(x, r);
    var cs := Candidates(r);
    var i, j := FirstKnown(x, cs), FirstKnown(w, cs);
    assert forall h :: 0 <= h < |cs| && w.KindOf(cs[h]).Some? ==> x.KindOf(cs[h]) == w.KindOf(cs[h]);
    assert i <= j;
    if i < |cs| && w.KindOf(cs[i]).Some? { assert j == i; }
  }

  /** Which name is fixed, and what would have to come first for it not to be. */
  ghost predicate Fixed(root: Root, files: seq<File>, f: File, most: seq<File>, b: Option<(DeclKind, string)>) {
    b == None
    || b.value.1 in root.base || b.value.1 in NamesIn(f)
    || forall g :: g in most && b.value.1 in Visible(g) ==> !CanPrecede(root, files, f, g)
  }

  /** A reference is bound to the same name in every resolving order if and only if the
      name it gets after everything that can precede its file is there from the start,
      is its file's own, or is declared by a file that its file cannot do without. */
  lemma BindingSettled(root: Root, files: seq<File>, f: File, r: Reference, most: seq<File>)
    requires Tidy(root, files) && Steady(root, files) && Loadable(root, files)
    requires f in files && AllBefore(root, files, f, most)
    ensures Settled(root, files, f, r) <==> Fixed(root, files, f, most, Binding(root, f, r, Known(root, most)))
  {
    var b := Binding(root, f, r, Known(root, most));
    if Fixed(root, files, f, most, b) {
      forall o, i, c | BoundIn(root, files, f, r, o, i, c)
        ensures c == b
      {
        FixedBinds(root, files, f, r, most, o, i);
      }
    } else {
      var g :| g in most && b.value.1 in Visible(g) && CanPrecede(root, files, f, g);
      var early, i := BoundWithout(root, files, f, r, most, g);
      var late, j := BoundLast(root, files, f, most);
      assert BoundIn(root, files, f, r, early, i, Binding(root, f, r, Known(root, early[..i])));
      assert BoundIn(root, files, f, r, late, j, b);
    }
  }

  lemma FixedBinds(root: Root, files: seq<File>, f: File, r: Reference, most: seq<File>, order: seq<File>, i: nat)
    requires Tidy(root, files) && Steady(root, files) && f in files && AllBefore(root, files, f, most)
    requires Fixed(root, files, f, most, Binding(root, f, r, Known(root, most)))
    requires Resolving(root, files, order) && i < |order| && order[i] == f
    ensures Binding(root, f, r, Known(root, order[..i])) == Binding(root, f, r, Known(root, most))
  {
    var before, b := order[..i], Binding(root, f, r, Known(root, most));
    PartialPrefix(root, files, order, i);
    BeforeIsWithin(root, files, f, most, before);
    KnownGrows(root, files, before, most);
    BindingWithFewer(root, f, r, Known(root, before), Known(root, most));
    if b.Some? && b.value.1 !in root.base && b.value.1 !in NamesIn(f) {
      TopIsKnown(root, f, r, Known(root, most));
      NeededIsKnown(root, files, f, most, order, i, b.value.1);
    }
  }

  /** A name that `f` cannot be loaded without is known when `f` is loaded. */
  lemma NeededIsKnown(root: Root, files: seq<File>, f: File, most: seq<File>, order: seq<File>, i: nat, s: string)
    requires Tidy(root, files) && f in files && Partial(root, files, most) && f !in most
    requires Resolving(root, files, order) && i < |order| && order[i] == f
    requires s in Known(root, most) && s !in root.base
    requires forall g :: g in most && s in Visible(g) ==> !CanPrecede(root, files, f, g)
    ensures s in Known(root, order[..i])
  {
    var g := WhoDeclares(root, files, most, s);
    MustPrecede(root, files, f, g, order, i);
    KnownHas(root, files, order[..i], g, s);
  }

  lemma WhoDeclares(root: Root, files: seq<File>, order: seq<File>, s: string) returns (g: File)
    requires Tidy(root, files) && Within(order, files) && s in Known(root, order) && s !in root.base
    ensures g in order && s in Visible(g)
  {
    KnownIs(root, files, order);
    g :| g in order && s in Visible(g);
  }

  lemma KnownHas(root: Root, files: seq<File>, order: seq<File>, g: File, s: string)
    requires Tidy(root, files) && Within(order, files) && g in order && s in Visible(g)
    ensures s in Known(root, order)
  {
    KnownIs(root, files, order);
    assert Sub(Visible(g), Known(root, order));
  }

  lemma MustPrecede(root: Root, files: seq<File>, f: File, g: File, order: seq<File>, i: nat)
    requires Resolving(root, files, order) && i < |order| && order[i] == f
    requires !CanPrecede(root, files, f, g) && g != f
    ensures g in order[..i]
  {
    var upTo := order[..i + 1];
    PartialPrefix(root, files, order, i + 1);
    assert upTo[i] == f;
    assert g in upTo;
    var k :| 0 <= k < |upTo| && upTo[k] == g;
    assert order[..i][k] == g;
  }

  lemma TopIsKnown(root: Root, f: File, r: Reference, known: Names)
    ensures var b := Binding(root, f, r, known); b.Some? ==> b.value.1 in NamesIn(f) || b.value.1 in known
  {
    ResolvesFirst(World(NamesIn(f), known, root.customs), r);
  }

  /** An order in which the reference cannot get that name yet. */
  lemma BoundWithout(root: Root, files: seq<File>, f: File, r: Reference, most: seq<File>, g: File)
    returns (order: seq<File>, i: nat)
    requires Tidy(root, files) && Steady(root, files) && Loadable(root, files) && f in files
    requires AllBefore(root, files, f, most)
    requires Binding(root, f, r, Known(root, most)).Some?
    requires g in most && Binding(root, f, r, Known(root, most)).value.1 in Visible(g) && CanPrecede(root, files, f, g)
    ensures Resolving(root, files, order) && i < |order| && order[i] == f
    ensures Binding(root, f, r, Known(root, order[..i])) != Binding(root, f, r, Known(root, most))
  {
    var start :| Partial(root, files, start) && f in start && g !in start;
    order := Extends(root, files, start);
    i :| 0 <= i < |start| && start[i] == f;
    assert order[..i] == start[..i];
    PartialPrefix(root, files, order, i);
    TooEarly(root, files, f, r, most, g, order[..i]);
  }

  lemma TooEarly(root: Root, files: seq<File>, f: File, r: Reference, most: seq<File>, g: File, before: seq<File>)
    requires Tidy(root, files) && Steady(root, files) && f in files && AllBefore(root, files, f, most)
    requires Binding(root, f, r, Known(root, most)).Some?
    requires g in most && Binding(root, f, r, Known(root, most)).value.1 in Visible(g)
    requires Partial(root, files, before) && f !in before && g !in before
    ensures Binding(root, f, r, Known(root, before)) != Binding(root, f, r, Known(root, most))
  {
    var top := Binding(root, f, r, Known(root, most)).value.1;
    BeforeIsWithin(root, files, f, most, before);
    KnownGrows(root, files, before, most);
    BindingWithFewer(root, f, r, Known(root, before), Known(root, most));
    assert g != f;
    OnlyDeclarer(root, files, before, g, top);
    assert top !in NamesIn(f);
  }

  /** A name is not known before the one file that declares it is loaded. */
  lemma OnlyDeclarer(root: Root, files: seq<File>, order: seq<File>, g: File, s: string)
    requires Tidy(root, files) && Within(order, files) && g in files && g !in order && s in Visible(g)
    ensures s !in Known(root, order) && s !in root.base
  {
    KnownIs(root, files, order);
    forall h | h in order
      ensures s !in Visible(h)
    {
      assert h in files;
    }
  }

  /** An order in which everything that can precede `f` does. */
  lemma BoundLast(root: Root, files: seq<File>, f: File, most: seq<File>) returns (order: seq<File>, i: nat)
    requires Tidy(root, files) && Steady(root, files) && Loadable(root, files) && f in files
    requires AllBefore(root, files, f, most)
    ensures Resolving(root, files, order) && i < |order| && order[i] == f && order[..i] == most
  {
    FitsLast(root, files, f, most);
    PartialNext(root, files, most, f);
    order := Extends(root, files, most + [f]);
    i := |most|;
    PrefixAt(most, f, order);
  }

  lemma PrefixAt<T>(before: seq<T>, x: T, whole: seq<T>)
    requires before + [x] <= whole
    ensures |before| < |whole| && whole[|before|] == x && whole[..|before|] == before
  {
    assert whole[..|before| + 1] == before + [x];
    assert whole[|before|] == (before + [x])[|before|];
  }

  lemma FitsLast(root: Root, files: seq<File>, f: File, most: seq<File>)
    requires Tidy(root, files) && Steady(root, files) && Loadable(root, files) && f in files
    requires AllBefore(root, files, f, most)
    ensures Attempt(root, Known(root, most), f) == Fine
  {
    var best :| Resolving(root, files, best);
    var k :| 0 <= k < |best| && best[k] == f;
    var before := best[..k];
    PartialPrefix(root, files, best, k);
    BeforeIsWithin(root, files, f, most, before);
    FileGrows(root, files, f, before, most);
  }
}
