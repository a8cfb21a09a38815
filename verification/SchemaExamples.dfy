/** Three small files whose order of listing decides what becomes of them. */
module SchemaExamples {
  import opened Common
  import opened ProtoSyntax
  import opened ProtoGrammar
  import opened ProtoFileRoundTrip
  import opened NameResolution
  import opened SchemaOrder
  import opened SchemaBinding
  import opened SchemaLoader

  const ROOT: Root := Root(map[], {})

  /** What a rendered file is to the loader. */
  lemma TreeReads(scalars: set<string>, tokenize: string -> Option<seq<Token>>, text: string, f: FileAst)
    requires FileFits(f) && FileAllowed(scalars, f) && tokenize(text) == Some(RenderFile(f))
    ensures var entries := EntriesOfDecls(scalars, f.decls, f.package);
      var ledger := EnterAll(EMPTY_LEDGER, entries);
      Admitted(EMPTY_LEDGER, entries) ==>
        Read(scalars, tokenize, text) == File(text, ledger.declared, RefsOf(FileOf(scalars, f), ledger))
  {
    FileReads(scalars, f);
  }

  /** A message T outside any package. */
  const OUTER: FileAst := FileAst(true, "", [MessageDecl(MessageAst("T", []))])

  /** An enum p.T. */
  const INNER_ENUM: FileAst := FileAst(true, "p", [EnumDecl(EnumAst("T", [ValueAst("Z", 0)]))])

  /** A message p.T. */
  const INNER_MESSAGE: FileAst := FileAst(true, "p", [MessageDecl(MessageAst("T", []))])

  /** A service of package p whose rpc takes and returns a T. */
  const CALLER: FileAst := FileAst(true, "p", [ServiceDecl(ServiceAst("S", [RpcAst("R", false, "T", false, "T")]))])

  lemma OneEntry(e: Entry)
    requires e.Declares?
    ensures Admitted(EMPTY_LEDGER, [e]) && EnterAll(EMPTY_LEDGER, [e]) == Ledger(map[e.full := e.kind], [])
  {
    assert [e][1..] == [];
    assert EnterAll(Enter(EMPTY_LEDGER, e), []) == Enter(EMPTY_LEDGER, e);
  }

  lemma OuterReads(scalars: set<string>, tokenize: string -> Option<seq<Token>>, text: string)
    requires tokenize(text) == Some(RenderFile(OUTER))
    ensures Read(scalars, tokenize, text) == File(text, map["T" := IsMessage], [])
  {
    TreeReads(scalars, tokenize, text, OUTER);
    var e := Declares("T", IsMessage, true);
    OneEntry(e);
    assert EntriesOfMessage(scalars, MessageAst("T", []), "") == [e];
    assert OUTER.decls[1..] == [];
    assert EntriesOfDecls(scalars, OUTER.decls, "") == [e];
    assert FileOf(scalars, OUTER).services == [];
  }

  lemma InnerEnumReads(scalars: set<string>, tokenize: string -> Option<seq<Token>>, text: string)
    requires tokenize(text) == Some(RenderFile(INNER_ENUM))
    ensures Read(scalars, tokenize, text) == File(text, map["p.T" := IsEnum], [])
  {
    TreeReads(scalars, tokenize, text, INNER_ENUM);
    var e := Declares("p.T", IsEnum, true);
    OneEntry(e);
    assert "p" + "." + "T" == "p.T";
    assert INNER_ENUM.decls[1..] == [];
    assert EntriesOfDecls(scalars, INNER_ENUM.decls, "p") == [e];
    assert FileOf(scalars, INNER_ENUM).services == [];
  }

  lemma InnerMessageReads(scalars: set<string>, tokenize: string -> Option<seq<Token>>, text: string)
    requires tokenize(text) == Some(RenderFile(INNER_MESSAGE))
    ensures Read(scalars, tokenize, text) == File(text, map["p.T" := IsMessage], [])
  {
    TreeReads(scalars, tokenize, text, INNER_MESSAGE);
    var e := Declares("p.T", IsMessage, true);
    OneEntry(e);
    assert "p" + "." + "T" == "p.T";
    assert EntriesOfMessage(scalars, MessageAst("T", []), "p") == [e];
    assert INNER_MESSAGE.decls[1..] == [];
    assert EntriesOfDecls(scalars, INNER_MESSAGE.decls, "p") == [e];
    assert FileOf(scalars, INNER_MESSAGE).services == [];
  }

  const ARGUMENT: Reference := ArgumentRef("T", "p")

  lemma CallerReads(scalars: set<string>, tokenize: string -> Option<seq<Token>>, text: string)
    requires tokenize(text) == Some(RenderFile(CALLER))
    ensures Read(scalars, tokenize, text) == File(text, map["p.S" := IsService], [ARGUMENT, ARGUMENT])
  {
    TreeReads(scalars, tokenize, text, CALLER);
    var e := Declares("p.S", IsService, true);
    OneEntry(e);
    assert "p" + "." + "S" == "p.S";
    assert CALLER.decls[1..] == [];
    assert EntriesOfDecls(scalars, CALLER.decls, "p") == [e];
    var file := FileOf(scalars, CALLER);
    var m := MethodD("R", false, Pending("T", "p"), false, Pending("T", "p"));
    var s := ServiceD("S", [m]);
    var rpc := RpcAst("R", false, "T", false, "T");
    assert MethodsOf([rpc], "p") == [m];
    var start := FileD("p", true, [], [], []);
    assert WithDecl(scalars, start, CALLER.decls[0]).services == [s];
    assert file == DeclsOf(scalars, WithDecl(scalars, start, CALLER.decls[0]), []);
    assert file.services == [s];
    assert [m][1..] == [] && [s][1..] == [];
    assert ServiceRefs([s]) == MethodRefs([m]) == [ARGUMENT, ARGUMENT];
  }

  /** What the argument gets from what is known. */
  lemma ArgumentFares(known: Names)
    requires "p.S" !in known
    ensures var own := map["p.S" := IsService];
      ResolveName(World(own, known, {}), "T", "p") ==
        if "p.T" in known then Some((known["p.T"], "p.T"))
        else if "T" in known then Some((known["T"], "T"))
        else None
  {
    var cs := Candidates(ARGUMENT);
    assert Outer("p") == "";
    assert Outward("T", "") == ["T"];
    assert Qualify("p", "T") == "p.T";
    assert cs == ["p.T", "T"];
    assert "p.T" != "p.S" by { assert "p.T"[2] != "p.S"[2]; }
    assert |"T"| != |"p.S"|;
    ResolvesFirst(World(map["p.S" := IsService], known, {}), ARGUMENT);
  }

  lemma CallerFares(text: string, known: Names)
    requires "p.S" !in known
    ensures Attempt(ROOT, known, File(text, map["p.S" := IsService], [ARGUMENT, ARGUMENT])) ==
      if "p.T" in known then if known["p.T"] == IsMessage then Fine else Unknown
      else if "T" in known && known["T"] == IsMessage then Fine
      else Unknown
  {
    ArgumentFares(known);
    FirstFailureIs(World(map["p.S" := IsService], known, {}), [ARGUMENT, ARGUMENT]);
  }

  lemma KnownAfter(a: File, b: File)
    ensures Known(ROOT, []) == map[]
    ensures Known(ROOT, [a]) == Visible(a)
    ensures Known(ROOT, [a, b]) == Visible(a) + Visible(b)
  {
    KnownNext(ROOT, [], a);
    KnownNext(ROOT, [a], b);
    assert [] + [a] == [a] && [a] + [b] == [a, b];
  }

  lemma ThreeInOrder(a: File, b: File, c: File)
    requires a != b && a != c && b != c
    requires Attempt(ROOT, map[], a) == Fine
    requires Attempt(ROOT, Visible(a), b) == Fine
    requires Attempt(ROOT, Visible(a) + Visible(b), c) == Fine
    ensures Resolving(ROOT, [a, b, c], [a, b, c]) && Succeeds(ROOT, [a, b, c])
  {
    var order := [a, b, c];
    KnownAfter(a, b);
    assert order[..0] == [] && order[..1] == [a] && order[..2] == [a, b];
    SomeListingSucceeds(ROOT, order, order);
  }

  /** The same three files load when they are listed in one order and raise in another:
      the rpc's argument is the message T, or the enum p.T. */
  lemma ListingMatters(scalars: set<string>, tokenize: string -> Option<seq<Token>>, outer: string, inner: string,
                       caller: string)
    requires tokenize(outer) == Some(RenderFile(OUTER))
    requires tokenize(inner) == Some(RenderFile(INNER_ENUM))
    requires tokenize(caller) == Some(RenderFile(CALLER))
    ensures var o, i, c := Read(scalars, tokenize, outer), Read(scalars, tokenize, inner),
      Read(scalars, tokenize, caller);
      Succeeds(ROOT, [o, c, i]) && !Succeeds(ROOT, [i, o, c])
  {
    OuterReads(scalars, tokenize, outer);
    InnerEnumReads(scalars, tokenize, inner);
    CallerReads(scalars, tokenize, caller);
    var o, i, c := Read(scalars, tokenize, outer), Read(scalars, tokenize, inner), Read(scalars, tokenize, caller);
    EnumLast(o, i, c);
    EnumFirst(o, i, c);
  }

  lemma EnumLast(o: File, i: File, c: File)
    requires o.File? && o.names == map["T" := IsMessage] && o.refs == []
    requires i.File? && i.names == map["p.T" := IsEnum] && i.refs == []
    requires c.File? && c.names == map["p.S" := IsService] && c.refs == [ARGUMENT, ARGUMENT]
    ensures Succeeds(ROOT, [o, c, i])
  {
    NamesApart();
    CallerFares(c.text, Visible(o));
    ThreeInOrder(o, c, i);
  }

  lemma NamesApart()
    ensures "T" != "p.T" && "T" != "p.S" && "p.T" != "p.S"
  {
    assert |"T"| == 1 && "p.T"[2] != "p.S"[2];
  }

  /** With the enum loaded first, nothing more can be done for the caller. */
  lemma EnumFirst(o: File, i: File, c: File)
    requires o.File? && o.names == map["T" := IsMessage] && o.refs == []
    requires i.File? && i.names == map["p.T" := IsEnum] && i.refs == []
    requires c.File? && c.names == map["p.S" := IsService] && c.refs == [ARGUMENT, ARGUMENT]
    ensures !Succeeds(ROOT, [i, o, c])
  {
    var listing := [i, o, c];
    NamesApart();
    KnownAfter(i, o);
    CallerFares(c.text, Visible(i) + Visible(o));
    assert [i, o][..0] == [] && [i, o][..1] == [i];
    assert Partial(ROOT, listing, [i, o]);
    assert [i, o] + [c] == listing;
    ListedInOrder(ROOT, listing, [i, o], [c]);
    StuckPass(ROOT, [i, o], [c]);
    StuckLoad(ROOT, [i, o], [c]);
    assert [c][1..] == [];
    assert Pass(ROOT, [i, o], [c]) == Swept([i, o], [c]);
    PassShrinks(ROOT, [], listing);
    assert Load(ROOT, [], listing) == Load(ROOT, [i, o], [c]);
  }

  /** With a message p.T in place of the enum both listings load, and the rpc's argument
      is one message in the one and another in the other. */
  lemma BindingMatters(scalars: set<string>, tokenize: string -> Option<seq<Token>>, outer: string, inner: string,
                       caller: string)
    requires tokenize(outer) == Some(RenderFile(OUTER))
    requires tokenize(inner) == Some(RenderFile(INNER_MESSAGE))
    requires tokenize(caller) == Some(RenderFile(CALLER))
    ensures var o, i, c := Read(scalars, tokenize, outer), Read(scalars, tokenize, inner),
      Read(scalars, tokenize, caller);
      && Succeeds(ROOT, [o, c, i]) && Succeeds(ROOT, [i, o, c])
      && c.File? && ARGUMENT in c.refs
      && Binding(ROOT, c, ARGUMENT, Known(ROOT, [o])) == Some((IsMessage, "T"))
      && Binding(ROOT, c, ARGUMENT, Known(ROOT, [i, o])) == Some((IsMessage, "p.T"))
  {
    OuterReads(scalars, tokenize, outer);
    InnerMessageReads(scalars, tokenize, inner);
    CallerReads(scalars, tokenize, caller);
    var o, i, c := Read(scalars, tokenize, outer), Read(scalars, tokenize, inner), Read(scalars, tokenize, caller);
    NamesApart();
    KnownAfter(o, c);
    KnownAfter(i, o);
    CallerFares(caller, Visible(o));
    CallerFares(caller, Visible(i) + Visible(o));
    ArgumentFares(Visible(o));
    ArgumentFares(Visible(i) + Visible(o));
    ThreeInOrder(o, c, i);
    ThreeInOrder(i, o, c);
  }
}
