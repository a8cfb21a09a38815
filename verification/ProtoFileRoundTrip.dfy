/** Parsing undoes rendering for whole files, references bound. */
module ProtoFileRoundTrip {
  import opened Common
  import opened ProtoSyntax
  import opened ProtoGrammar
  import opened ProtoRoundTrip
  import opened NameResolution
  import opened ProtoParser

  // ---- services ----

  lemma ArgumentReads(stream: bool, typeName: string, tail: seq<Token>)
    requires !stream ==> typeName != "stream"
    ensures ParseArgument(RenderArgument(stream, typeName) + tail) == Taken((stream, typeName), tail)
  {
    var end := [Word(typeName), Punct(")")];
    assert end + tail == [Word(typeName)] + ([Punct(")")] + tail);
    if stream {
      Assoc([Punct("(")] + [Word("stream")], end, tail);
      Assoc([Punct("(")], [Word("stream")], end + tail);
    } else {
      Nothing(end, [Punct("(")]);
      Assoc([Punct("(")], end, tail);
    }
  }

  function MethodOf(r: RpcAst, package: string): MethodD {
    MethodD(r.name, r.clientStream, Pending(r.input, package), r.serverStream, Pending(r.output, package))
  }

  lemma RpcNameReads(name: string, rest: seq<Token>)
    requires SimpleName(name)
    ensures ParseRpcName([Word("rpc")] + ([Word(name)] + rest)) == Taken(name, rest)
  {
    NoDot(name);
  }

  lemma ReturnsReads(rest: seq<Token>)
    ensures Expect([Word("returns")] + rest, "returns") == Taken((), rest)
    ensures ParseRpcEnd([Punct(";")] + rest) == Taken((), rest)
  {
  }

  lemma RpcReads(r: RpcAst, package: string, tail: seq<Token>)
    requires RpcFits(r)
    ensures ParseRpc(RenderRpc(r) + tail, package) == Taken(MethodOf(r, package), tail)
  {
    var end := [Punct(";")] + tail;
    var output := RenderArgument(r.serverStream, r.output) + end;
    var back := [Word("returns")] + output;
    RpcSpread(r, tail);
    RpcNameReads(r.name, RenderArgument(r.clientStream, r.input) + back);
    ArgumentReads(r.clientStream, r.input, back);
    ReturnsReads(output);
    ArgumentReads(r.serverStream, r.output, end);
    ReturnsReads(tail);
  }

  lemma RpcStep(r: RpcAst, package: string, methods: seq<MethodD>, rest: seq<Token>)
    requires RpcFits(r)
    ensures ParseRpcs(RenderRpc(r) + rest, package, methods)
         == ParseRpcs(rest, package, methods + [MethodOf(r, package)])
  {
    RpcReads(r, package, rest);
    RpcSpread(r, rest);
  }

  lemma RpcSpread(r: RpcAst, tail: seq<Token>)
    ensures RenderRpc(r) + tail == [Word("rpc")] + ([Word(r.name)] + (RenderArgument(r.clientStream, r.input)
      + ([Word("returns")] + (RenderArgument(r.serverStream, r.output) + ([Punct(";")] + tail)))))
  {
    var input, output := RenderArgument(r.clientStream, r.input), RenderArgument(r.serverStream, r.output);
    var head := [Word("rpc"), Word(r.name)];
    Assoc(head + input + [Word("returns")] + output, [Punct(";")], tail);
    Assoc(head + input + [Word("returns")], output, [Punct(";")] + tail);
    Assoc(head + input, [Word("returns")], output + ([Punct(";")] + tail));
    Assoc(head, input, [Word("returns")] + (output + ([Punct(";")] + tail)));
    Assoc([Word("rpc")], [Word(r.name)], input + ([Word("returns")] + (output + ([Punct(";")] + tail))));
    assert head == [Word("rpc")] + [Word(r.name)];
  }

  lemma {:induction false} RpcsRead(rpcs: seq<RpcAst>, package: string, methods: seq<MethodD>, tail: seq<Token>)
    requires forall i :: 0 <= i < |rpcs| ==> RpcFits(rpcs[i])
    ensures ParseRpcs(RenderRpcs(rpcs) + ([Punct("}")] + tail), package, methods)
         == Taken(methods + MethodsOf(rpcs, package), tail)
    decreases rpcs
  {
    var end := [Punct("}")] + tail;
    if rpcs == [] {
      Nothing(end, methods);
    } else {
      var first := MethodOf(rpcs[0], package);
      Assoc(RenderRpc(rpcs[0]), RenderRpcs(rpcs[1..]), end);
      RpcStep(rpcs[0], package, methods, RenderRpcs(rpcs[1..]) + end);
      RpcsRead(rpcs[1..], package, methods + [first], tail);
      assert MethodsOf(rpcs, package) == [first] + MethodsOf(rpcs[1..], package);
      Assoc(methods, [first], MethodsOf(rpcs[1..], package));
    }
  }

  // ---- declarations ----

  ghost predicate ReadsDecl(scalars: set<string>, d: DeclAst, file: FileD, ledger: Ledger, tail: seq<Token>) {
    var ts := RenderDecl(d) + tail;
    && ts != []
    && ParseDecl(scalars, ts, file, ledger)
         == Parsed(WithDecl(scalars, file, d), tail, EnterAll(ledger, EntriesOfDecl(scalars, d, file.package)))
  }

  lemma MessageDeclReads(scalars: set<string>, d: DeclAst, file: FileD, ledger: Ledger, tail: seq<Token>)
    requires d.MessageDecl? && DeclFits(d) && DeclAllowed(scalars, file.proto3, d)
    requires Admitted(ledger, EntriesOfDecl(scalars, d, file.package))
    ensures ReadsDecl(scalars, d, file, ledger, tail)
  {
    BlockOpens("message", d.m.name, RenderItems(d.m.items), tail);
    MessageReads(scalars, file.proto3, d.m, file.package, ledger, tail);
  }

  lemma EnumDeclReads(scalars: set<string>, d: DeclAst, file: FileD, ledger: Ledger, tail: seq<Token>)
    requires d.EnumDecl? && DeclFits(d) && DeclAllowed(scalars, file.proto3, d)
    requires Admitted(ledger, EntriesOfDecl(scalars, d, file.package))
    ensures ReadsDecl(scalars, d, file, ledger, tail)
  {
    BlockOpens("enum", d.e.name, RenderValues(d.e.values), tail);
    EnumReads(file.proto3, d.e, file.package, ledger, tail);
    EnterOne(ledger, EntriesOfDecl(scalars, d, file.package)[0]);
  }

  function ServiceTokens(s: ServiceAst): seq<Token> {
    [Word("service"), Word(s.name), Punct("{")] + RenderRpcs(s.rpcs) + [Punct("}")]
  }

  lemma ServiceReads(s: ServiceAst, package: string, ledger: Ledger, tail: seq<Token>)
    requires SimpleName(s.name) && (forall i :: 0 <= i < |s.rpcs| ==> RpcFits(s.rpcs[i]))
    requires Qualify(package, s.name) !in ledger.declared
    ensures var ts := ServiceTokens(s) + tail;
      && ts != [] && ts[0].text == "service"
      && ParseService(ts, package, ledger)
           == Parsed(ServiceD(s.name, MethodsOf(s.rpcs, package)), tail,
             Declaring(ledger, Qualify(package, s.name), IsService))
  {
    BlockOpens("service", s.name, RenderRpcs(s.rpcs), tail);
    RpcsRead(s.rpcs, package, [], tail);
    Nothing(MethodsOf(s.rpcs, package), tail);
  }

  lemma ServiceWord(scalars: set<string>, ts: seq<Token>, file: FileD, ledger: Ledger, s: ServiceD, rest: seq<Token>,
                    more: Ledger)
    requires ts != [] && ts[0].text == "service" && ParseService(ts, file.package, ledger) == Parsed(s, rest, more)
    ensures ParseDecl(scalars, ts, file, ledger) == Parsed(file.(services := file.services + [s]), rest, more)
  {
  }

  lemma ServiceDeclReads(scalars: set<string>, d: DeclAst, file: FileD, ledger: Ledger, tail: seq<Token>)
    requires d.ServiceDecl? && DeclFits(d)
    requires Admitted(ledger, EntriesOfDecl(scalars, d, file.package))
    ensures ReadsDecl(scalars, d, file, ledger, tail)
  {
    var full := Qualify(file.package, d.s.name);
    EnterOne(ledger, Declares(full, IsService, true));
    ServiceReads(d.s, file.package, ledger, tail);
    ServiceWord(scalars, ServiceTokens(d.s) + tail, file, ledger,
      ServiceD(d.s.name, MethodsOf(d.s.rpcs, file.package)), tail, Declaring(ledger, full, IsService));
  }

  lemma DeclReads(scalars: set<string>, d: DeclAst, file: FileD, ledger: Ledger, tail: seq<Token>)
    requires DeclFits(d) && DeclAllowed(scalars, file.proto3, d)
    requires Admitted(ledger, EntriesOfDecl(scalars, d, file.package))
    ensures ReadsDecl(scalars, d, file, ledger, tail)
  {
    match d
    case MessageDecl(_) => MessageDeclReads(scalars, d, file, ledger, tail);
    case EnumDecl(_) => EnumDeclReads(scalars, d, file, ledger, tail);
    case ServiceDecl(_) => ServiceDeclReads(scalars, d, file, ledger, tail);
  }

  lemma {:induction false} DeclsRead(scalars: set<string>, decls: seq<DeclAst>, file: FileD, ledger: Ledger)
    requires forall i :: 0 <= i < |decls| ==> DeclFits(decls[i])
    requires DeclsAllowed(scalars, file.proto3, decls)
    requires Admitted(ledger, EntriesOfDecls(scalars, decls, file.package))
    ensures ParseDecls(scalars, RenderDecls(decls), file, ledger)
      == Parsed(DeclsOf(scalars, file, decls), [], EnterAll(ledger, EntriesOfDecls(scalars, decls, file.package)))
    decreases decls
  {
    if decls != [] {
      var first, rest := decls[0], decls[1..];
      EnterTwice(ledger, EntriesOfDecl(scalars, first, file.package), EntriesOfDecls(scalars, rest, file.package));
      DeclReads(scalars, first, file, ledger, RenderDecls(rest));
      DeclsRead(scalars, rest, WithDecl(scalars, file, first),
        EnterAll(ledger, EntriesOfDecl(scalars, first, file.package)));
    }
  }

  lemma DeclRefused(scalars: set<string>, d: DeclAst, file: FileD, ledger: Ledger, tail: seq<Token>)
    requires DeclFits(d)
    requires !DeclAllowed(scalars, file.proto3, d) || !Admitted(ledger, EntriesOfDecl(scalars, d, file.package))
    ensures var ts := RenderDecl(d) + tail; ts != [] && ParseDecl(scalars, ts, file, ledger) == Refused
  {
    match d
    case MessageDecl(m) =>
      BlockOpens("message", m.name, RenderItems(m.items), tail);
      MessageRefused(scalars, file.proto3, m, file.package, ledger, tail);
    case EnumDecl(e) =>
      BlockOpens("enum", e.name, RenderValues(e.values), tail);
      if Qualify(file.package, e.name) !in ledger.declared {
        EnumReads(file.proto3, e, file.package, ledger, tail);
        EnterOne(ledger, EntriesOfDecl(scalars, d, file.package)[0]);
      }
    case ServiceDecl(s) =>
      BlockOpens("service", s.name, RenderRpcs(s.rpcs), tail);
  }

  lemma {:induction false} DeclsRefused(scalars: set<string>, decls: seq<DeclAst>, file: FileD, ledger: Ledger)
    requires forall i :: 0 <= i < |decls| ==> DeclFits(decls[i])
    requires || !DeclsAllowed(scalars, file.proto3, decls)
             || !Admitted(ledger, EntriesOfDecls(scalars, decls, file.package))
    ensures ParseDecls(scalars, RenderDecls(decls), file, ledger) == Refused
    decreases decls
  {
    var first, rest := decls[0], decls[1..];
    EnterTwice(ledger, EntriesOfDecl(scalars, first, file.package), EntriesOfDecls(scalars, rest, file.package));
    if DeclAllowed(scalars, file.proto3, first) && Admitted(ledger, EntriesOfDecl(scalars, first, file.package)) {
      DeclReads(scalars, first, file, ledger, RenderDecls(rest));
      DeclsRefused(scalars, rest, WithDecl(scalars, file, first),
        EnterAll(ledger, EntriesOfDecl(scalars, first, file.package)));
    } else {
      DeclRefused(scalars, first, file, ledger, RenderDecls(rest));
    }
  }

  // ---- files ----

  lemma SyntaxReads(scalars: set<string>, proto3: bool, file: FileD, ledger: Ledger, tail: seq<Token>)
    ensures var ts := [Word("syntax"), Punct("="), Quoted(if proto3 then "proto3" else "proto2"), Punct(";")] + tail;
      ts != [] && ParseDecl(scalars, ts, file, ledger) == Parsed(file.(proto3 := proto3), tail, ledger)
  {
    var version := Quoted(if proto3 then "proto3" else "proto2");
    Spread4(Word("syntax"), Punct("="), version, Punct(";"), tail);
    assert "proto3"[5] == '3' && "proto2"[5] == '2';
  }

  lemma PackageReads(scalars: set<string>, package: string, file: FileD, ledger: Ledger, tail: seq<Token>)
    requires package != "" && package[0] != '.'
    ensures var ts := [Word("package"), Word(package), Punct(";")] + tail;
      ts != [] && ParseDecl(scalars, ts, file, ledger) == Parsed(file.(package := package), tail, ledger)
  {
    Spread3(Word("package"), Word(package), Punct(";"), tail);
  }

  function Header(f: FileAst): seq<Token> {
    if f.package == "" then [] else [Word("package"), Word(f.package), Punct(";")]
  }

  lemma PackagePart(scalars: set<string>, f: FileAst, tail: seq<Token>)
    requires f.package == "" || f.package[0] != '.'
    ensures ParseDecls(scalars, Header(f) + tail, FileD("", f.proto3, [], [], []), EMPTY_LEDGER)
      == ParseDecls(scalars, tail, FileD(f.package, f.proto3, [], [], []), EMPTY_LEDGER)
  {
    if f.package == "" {
      Nothing(tail, tail);
    } else {
      PackageReads(scalars, f.package, FileD("", f.proto3, [], [], []), EMPTY_LEDGER, tail);
    }
  }

  predicate FileAllowed(scalars: set<string>, f: FileAst) {
    DeclsAllowed(scalars, f.proto3, f.decls)
  }

  lemma FileReads(scalars: set<string>, f: FileAst)
    requires FileFits(f)
    ensures ParseFile(scalars, RenderFile(f)) ==
      if FileAllowed(scalars, f) && Admitted(EMPTY_LEDGER, EntriesOfDecls(scalars, f.decls, f.package))
      then Parsed(FileOf(scalars, f), [], EnterAll(EMPTY_LEDGER, EntriesOfDecls(scalars, f.decls, f.package)))
      else Refused
  {
    var syntax := [Word("syntax"), Punct("="), Quoted(if f.proto3 then "proto3" else "proto2"), Punct(";")];
    Assoc(syntax, Header(f), RenderDecls(f.decls));
    SyntaxReads(scalars, f.proto3, FileD("", false, [], [], []), EMPTY_LEDGER, Header(f) + RenderDecls(f.decls));
    PackagePart(scalars, f, RenderDecls(f.decls));
    if FileAllowed(scalars, f) && Admitted(EMPTY_LEDGER, EntriesOfDecls(scalars, f.decls, f.package)) {
      DeclsRead(scalars, f.decls, FileD(f.package, f.proto3, [], [], []), EMPTY_LEDGER);
    } else {
      DeclsRefused(scalars, f.decls, FileD(f.package, f.proto3, [], [], []), EMPTY_LEDGER);
    }
  }

  /** For every supported tree: the parser run on its rendering returns exactly the
      tree's descriptor with each reference bound to the innermost declared name. It
      is refused exactly when a message, enum or service repeats a name declared
      before it, a map's key type, a oneof member's label or a proto3 enum's first value
      is not allowed, or some reference has nothing to bind to. */
  lemma ParsingUndoesRendering(scalars: set<string>, loaded: Names, customs: set<string>, f: FileAst, d: FileD)
    requires FileFits(f)
    ensures var entries := EntriesOfDecls(scalars, f.decls, f.package);
      var ledger := EnterAll(EMPTY_LEDGER, entries);
      (Compile(scalars, loaded, customs, RenderFile(f)) == Built(d, ledger.declared))
      <==> (&& FileAllowed(scalars, f) && Admitted(EMPTY_LEDGER, entries)
            && BoundFile(World(ledger.declared, loaded, customs), FileOf(scalars, f), d))
  {
    FileReads(scalars, f);
    var ledger := EnterAll(EMPTY_LEDGER, EntriesOfDecls(scalars, f.decls, f.package));
    FileIff(World(ledger.declared, loaded, customs), FileOf(scalars, f), d);
  }

  // ---- what the names and the synthetic oneofs come to ----

  predicate NamesIt(e: Entry, full: string) {
    e.Declares? && e.full == full
  }

  predicate NamesItLast(more: seq<Entry>, i: nat, full: string)
    requires i < |more|
  {
    NamesIt(more[i], full) && forall j :: i < j < |more| ==> !NamesIt(more[j], full)
  }

  /** A name is known exactly when the tree declares it, as what it is declared last. */
  lemma {:induction false} DeclaredIs(ledger: Ledger, more: seq<Entry>, full: string)
    ensures var after := EnterAll(ledger, more).declared;
      && (full in after <==> full in ledger.declared || exists i :: 0 <= i < |more| && NamesIt(more[i], full))
      && (full in ledger.declared && (forall i :: 0 <= i < |more| ==> !NamesIt(more[i], full)) ==>
            after[full] == ledger.declared[full])
      && (forall i :: 0 <= i < |more| && NamesItLast(more, i, full) ==> after[full] == more[i].kind)
    decreases more
  {
    if more != [] {
      var next, rest := Enter(ledger, more[0]), more[1..];
      assert forall i :: 0 < i < |more| ==> more[i] == rest[i - 1];
      assert forall i :: 0 <= i < |rest| ==> rest[i] == more[i + 1];
      DeclaredIs(next, rest, full);
      if i :| 0 <= i < |rest| && NamesIt(rest[i], full) {
        assert NamesIt(more[i + 1], full);
      }
    }
  }

  /** Where a field of a parsed message stands: in a declared oneof, in a synthetic
      one that carries its name and comes after all declared ones, or in none. */
  predicate OneofPlaced(f: FieldD, declared: seq<string>, synthetic: seq<string>) {
    if f.proto3Optional then
      && f.oneof.Some? && |declared| <= f.oneof.value < |declared| + |synthetic|
      && synthetic[f.oneof.value - |declared|] == "_" + f.name
    else
      f.oneof.Some? ==> f.oneof.value < |declared|
  }

  /** The fields stand where they should, the synthetic oneofs numbered from `from` on
      in the order of their fields. */
  predicate Placed(fields: seq<FieldD>, declared: seq<string>, synthetic: seq<string>, from: nat) {
    && (forall i :: 0 <= i < |fields| ==> OneofPlaced(fields[i], declared, synthetic))
    && (forall i :: 0 <= i < |fields| && fields[i].proto3Optional ==> from <= fields[i].oneof.value)
    && (forall i, j :: 0 <= i < j < |fields| && fields[i].proto3Optional && fields[j].proto3Optional ==>
          fields[i].oneof.value < fields[j].oneof.value)
  }

  lemma PlacedPlain(plain: seq<FieldD>, rest: seq<FieldD>, declared: seq<string>, synthetic: seq<string>, from: nat)
    requires Placed(rest, declared, synthetic, from)
    requires forall i :: 0 <= i < |plain| ==>
          !plain[i].proto3Optional && (plain[i].oneof.Some? ==> plain[i].oneof.value < |declared|)
    ensures Placed(plain + rest, declared, synthetic, from)
  {
  }

  lemma PlacedSynthetic(f: FieldD, rest: seq<FieldD>, declared: seq<string>, synthetic: seq<string>, from: nat)
    requires Placed(rest, declared, synthetic, from + 1)
    requires f.proto3Optional && f.oneof == Some(from) && |declared| <= from < |declared| + |synthetic|
    requires synthetic[from - |declared|] == "_" + f.name
    ensures Placed([f] + rest, declared, synthetic, from)
  {
  }

  lemma {:induction false} FieldsPlaced(scalars: set<string>, proto3: bool, items: seq<ItemAst>, scope: string,
                                        before: seq<string>, earlier: seq<string>,
                                        declared: seq<string>, synthetic: seq<string>)
    requires before + OneofNames(items) == declared && earlier + SyntheticNames(proto3, items) == synthetic
    ensures var from := |declared| + |earlier|;
      Placed(FieldsOf(scalars, proto3, items, scope, |before|, from), declared, synthetic, from)
    decreases items
  {
    if items != [] {
      var item, rest, from := items[0], items[1..], |declared| + |earlier|;
      if Synthetic(proto3, item) {
        var name := "_" + item.f.name;
        Assoc(earlier, [name], SyntheticNames(proto3, rest));
        Nothing(OneofNames(rest), before);
        assert synthetic[|earlier|] == name;
        FieldsPlaced(scalars, proto3, rest, scope, before, earlier + [name], declared, synthetic);
        PlacedSynthetic(PlainField(scalars, item.f, scope, Some(from)).(proto3Optional := true),
          FieldsOf(scalars, proto3, rest, scope, |before|, from + 1), declared, synthetic, from);
      } else {
        var now := before + if item.OneofItem? then [item.name] else [];
        OptionalLater(proto3, items, 0);
        Assoc(before, if item.OneofItem? then [item.name] else [], OneofNames(rest));
        FieldsPlaced(scalars, proto3, rest, scope, now, earlier, declared, synthetic);
        PlainFirst(scalars, proto3, items, scope, |before|, from);
        RawFieldsPlain(scalars, item, scope, |before|);
        PlacedPlain(RawFields(scalars, item, scope, |before|),
          FieldsOf(scalars, proto3, rest, scope, |now|, from), declared, synthetic, from);
      }
    }
  }

  lemma RawFieldsPlain(scalars: set<string>, item: ItemAst, scope: string, oneofs: nat)
    ensures forall f :: f in RawFields(scalars, item, scope, oneofs) ==>
      !f.proto3Optional && (f.oneof.Some? ==> item.OneofItem? && f.oneof.value == oneofs)
  {
    if item.OneofItem? { MembersPlaced(scalars, item.members, scope, oneofs); }
  }

  lemma {:induction false} MembersPlaced(scalars: set<string>, members: seq<FieldAst>, scope: string, oneof: nat)
    ensures forall f :: f in MemberFields(scalars, members, scope, oneof) ==>
          f.oneof == Some(oneof) && !f.proto3Optional
  {
    if members != [] { MembersPlaced(scalars, members[1..], scope, oneof); }
  }

  /** Each proto3 optional field of a message sits in a synthetic oneof of its own
      that carries its name, placed after every declared oneof. */
  lemma SyntheticAfterDeclared(scalars: set<string>, proto3: bool, m: MessageAst, scope: string)
    ensures var d := MessageOf(scalars, proto3, m, scope); var declared := OneofNames(m.items);
      declared <= d.oneofs && Placed(d.fields, declared, d.oneofs[|declared|..], |declared|)
  {
    var declared, synthetic := OneofNames(m.items), SyntheticNames(proto3, m.items);
    Nothing(declared, declared);
    Nothing(synthetic, synthetic);
    assert (declared + synthetic)[|declared|..] == synthetic;
    var before: seq<string> := [];
    FieldsPlaced(scalars, proto3, m.items, Qualify(scope, m.name), before, before, declared, synthetic);
  }
}
