/** Parsing undoes rendering, one construct after another. */
module ProtoRoundTrip {
  import opened Common
  import opened ProtoSyntax
  import opened ProtoGrammar

  lemma Spread4(a: Token, b: Token, c: Token, d: Token, tail: seq<Token>)
    ensures [a, b, c, d] + tail == [a] + ([b] + ([c] + ([d] + tail)))
  {
  }

  lemma Spread5(a: Token, b: Token, c: Token, d: Token, e: Token, tail: seq<Token>)
    ensures [a, b, c, d, e] + tail == [a] + ([b] + ([c] + ([d] + ([e] + tail))))
  {
  }

  lemma Assoc<T>(a: seq<T>, b: seq<T>, c: seq<T>)
    ensures (a + b) + c == a + (b + c)
  {
  }

  lemma Nothing<T, U>(after: seq<T>, before: seq<U>)
    ensures [] + after == after && before + [] == before
  {
  }

  lemma Spread3(a: Token, b: Token, c: Token, tail: seq<Token>)
    ensures [a, b, c] + tail == [a] + ([b] + ([c] + tail))
  {
  }

  lemma NoDot(name: string)
    requires SimpleName(name)
    ensures '.' !in name
  {
  }

  lemma NotPunct(name: string)
    requires TypeName(name)
    ensures name != "}" && name != ";" && name != "<"
  {
    var c := name[0];
    assert NameChar(c) || c == '.';
  }

  // ---- fields ----

  function HeadTokens(f: FieldAst): seq<Token> {
    [Word(f.typeName), Word(f.name), Punct("="), NumberToken(f.number), Punct(";")]
  }

  lemma HeadReads(f: FieldAst, tail: seq<Token>)
    requires TypeName(f.typeName) && SimpleName(f.name)
    ensures ParseFieldHead(HeadTokens(f) + tail) == Taken(FieldHead(f.typeName, f.name, f.number), tail)
  {
    NoDot(f.name);
    Spread5(Word(f.typeName), Word(f.name), Punct("="), NumberToken(f.number), Punct(";"), tail);
  }

  lemma ModifierReads(f: FieldAst, tail: seq<Token>)
    requires FieldFits(f)
    ensures ModifierAt(RenderField(f) + tail) == f.modifier
    ensures (if f.modifier.Bare? then RenderField(f) + tail else (RenderField(f) + tail)[1..]) == HeadTokens(f) + tail
  {
    var ts := RenderField(f) + tail;
    if f.modifier.Bare? {
      assert ts == HeadTokens(f) + tail;
      assert ts[0] == Word(f.typeName);
    } else {
      assert ts == RenderModifier(f.modifier) + (HeadTokens(f) + tail);
    }
  }

  lemma FieldReads(scalars: set<string>, proto3: bool, f: FieldAst, scope: string, oneof: Option<nat>, tail: seq<Token>)
    requires FieldFits(f)
    ensures ParseField(scalars, proto3, RenderField(f) + tail, scope, oneof) ==
      if oneof.Some? && !MemberAllowed(f) then Bad
      else Taken((PlainField(scalars, f, scope, oneof), proto3 && f.modifier.Optional? && oneof.None?), tail)
  {
    HeadReads(f, tail);
    ModifierReads(f, tail);
  }

  // ---- oneofs ----

  lemma MemberStep(scalars: set<string>, proto3: bool, f: FieldAst, rest: seq<Token>, scope: string, oneof: nat,
                   fields: seq<FieldD>)
    requires FieldFits(f)
    ensures ParseMembers(scalars, proto3, RenderField(f) + rest, scope, oneof, fields) ==
      if MemberAllowed(f) then
        ParseMembers(scalars, proto3, rest, scope, oneof, fields + [PlainField(scalars, f, scope, Some(oneof))])
      else Bad
  {
    MemberStarts(f, rest);
    FieldReads(scalars, proto3, f, scope, Some(oneof), rest);
  }

  lemma {:induction false} MembersRead(scalars: set<string>, proto3: bool, members: seq<FieldAst>, scope: string,
                                       oneof: nat, fields: seq<FieldD>, tail: seq<Token>)
    requires forall k :: 0 <= k < |members| ==> FieldFits(members[k])
    ensures ParseMembers(scalars, proto3, RenderMembers(members) + ([Punct("}")] + tail), scope, oneof, fields) ==
      if MembersAllowed(members) then Taken(fields + MemberFields(scalars, members, scope, oneof), tail) else Bad
    decreases members
  {
    var end := [Punct("}")] + tail;
    if members == [] {
      Nothing(end, fields);
    } else {
      var field := PlainField(scalars, members[0], scope, Some(oneof));
      Assoc(RenderField(members[0]), RenderMembers(members[1..]), end);
      MemberStep(scalars, proto3, members[0], RenderMembers(members[1..]) + end, scope, oneof, fields);
      if MemberAllowed(members[0]) {
        MembersRead(scalars, proto3, members[1..], scope, oneof, fields + [field], tail);
      }
      MembersAllowedNext(members);
      Assoc(fields, [field], MemberFields(scalars, members[1..], scope, oneof));
    }
  }

  lemma MembersAllowedNext(members: seq<FieldAst>)
    requires members != []
    ensures MembersAllowed(members) <==> MemberAllowed(members[0]) && MembersAllowed(members[1..])
  {
    assert members == [members[0]] + members[1..];
  }

  lemma MemberStarts(f: FieldAst, rest: seq<Token>)
    requires FieldFits(f)
    ensures var ts := RenderField(f) + rest;
      ts != [] && ts[0].text != "}" && ts[0].text != ";" && ts[0].text != "option" && ts[0].text != "group"
  {
    NotPunct(f.typeName);
    var ts := RenderField(f) + rest;
    match f.modifier
    case Bare => assert ts[0] == Word(f.typeName);
    case Optional => assert ts[0] == Word("optional");
    case Repeated => assert ts[0] == Word("repeated");
    case Required => assert ts[0] == Word("required");
  }

  lemma HeadOpens(keyword: string, name: string, rest: seq<Token>)
    requires SimpleName(name)
    ensures ParseHead([Word(keyword), Word(name), Punct("{")] + rest, keyword) == Taken(name, rest)
  {
    NoDot(name);
    Spread3(Word(keyword), Word(name), Punct("{"), rest);
  }

  /** A rendered block is its head, its body, and a closing brace before what follows. */
  lemma BlockOpens(keyword: string, name: string, body: seq<Token>, tail: seq<Token>)
    requires SimpleName(name)
    ensures var ts := [Word(keyword), Word(name), Punct("{")] + body + [Punct("}")] + tail;
      ts != [] && ts[0].text == keyword && ParseHead(ts, keyword) == Taken(name, body + ([Punct("}")] + tail))
  {
    var head := [Word(keyword), Word(name), Punct("{")];
    Assoc(head + body, [Punct("}")], tail);
    Assoc(head, body, [Punct("}")] + tail);
    HeadOpens(keyword, name, body + ([Punct("}")] + tail));
  }

  // ---- enums ----

  lemma SignedReads(number: int, rest: seq<Token>)
    ensures ParseSigned([NumberToken(number)] + rest) == Taken(number, rest)
  {
    var text := Numeral(number);
    assert text != "-" by {
      var last := text[|text| - 1];
      assert last != '-' && "-"[0] == '-';
    }
  }

  /** A sign that is a token of its own counts as well. */
  lemma SignReads(number: int, rest: seq<Token>)
    ensures ParseSigned([Punct("-"), NumberToken(number)] + rest) == Taken(-number, rest)
  {
    assert ([Punct("-"), NumberToken(number)] + rest)[1..] == [NumberToken(number)] + rest;
  }

  lemma ValueReads(v: ValueAst, tail: seq<Token>)
    requires ValueFits(v)
    ensures ParseValue(ValueTokens(v) + tail) == Taken(v, tail)
  {
    NoDot(v.name);
    Spread4(Word(v.name), Punct("="), NumberToken(v.number), Punct(";"), tail);
    SignedReads(v.number, [Punct(";")] + tail);
  }

  lemma SimpleIsType(name: string)
    requires SimpleName(name)
    ensures TypeName(name)
  {
  }

  function ValueTokens(v: ValueAst): seq<Token> {
    [Word(v.name), Punct("="), NumberToken(v.number), Punct(";")]
  }

  lemma ValueStep(v: ValueAst, rest: seq<Token>, values: seq<ValueAst>)
    requires ValueFits(v)
    ensures ParseValues(ValueTokens(v) + rest, values) == ParseValues(rest, values + [v])
  {
    ValueReads(v, rest);
    SimpleIsType(v.name);
    NotPunct(v.name);
    assert (ValueTokens(v) + rest)[0] == Word(v.name);
  }

  lemma {:induction false} ValuesRead(vs: seq<ValueAst>, values: seq<ValueAst>, tail: seq<Token>)
    requires forall i :: 0 <= i < |vs| ==> ValueFits(vs[i])
    ensures ParseValues(RenderValues(vs) + ([Punct("}")] + tail), values) == Taken(values + vs, tail)
    decreases vs
  {
    var end := [Punct("}")] + tail;
    if vs == [] {
      Nothing(end, values);
    } else {
      Assoc(ValueTokens(vs[0]), RenderValues(vs[1..]), end);
      ValueStep(vs[0], RenderValues(vs[1..]) + end, values);
      ValuesRead(vs[1..], values + [vs[0]], tail);
      Assoc(values, [vs[0]], vs[1..]);
      assert [vs[0]] + vs[1..] == vs;
    }
  }

  lemma EnumReads(proto3: bool, e: EnumAst, scope: string, ledger: Ledger, tail: seq<Token>)
    requires EnumFits(e) && Qualify(scope, e.name) !in ledger.declared
    ensures ParseEnum(proto3, RenderEnum(e) + tail, scope, ledger) ==
      if EnumAllowed(proto3, e) then Parsed(EnumOf(e), tail, Declaring(ledger, Qualify(scope, e.name), IsEnum))
      else Refused
  {
    BlockOpens("enum", e.name, RenderValues(e.values), tail);
    ValuesRead(e.values, [], tail);
    Nothing(e.values, e.values);
  }

  // ---- maps ----

  lemma MapOpens(key: string, value: string, rest: seq<Token>)
    ensures var ts := [Word("map"), Punct("<"), Word(key), Punct(","), Word(value)] + rest;
      ParseMapTypes(ts) == Taken((key, value), rest) && ts != [] && TextAt(ts[1..]) == "<"
  {
    Spread5(Word("map"), Punct("<"), Word(key), Punct(","), Word(value), rest);
  }

  lemma MapNames(name: string, number: int, rest: seq<Token>)
    requires SimpleName(name)
    ensures ParseMapName([Punct(">"), Word(name), Punct("="), NumberToken(number), Punct(";")] + rest)
         == Taken((name, number), rest)
  {
    NoDot(name);
    Spread5(Punct(">"), Word(name), Punct("="), NumberToken(number), Punct(";"), rest);
  }

  lemma MapHeadReads(scalars: set<string>, key: string, value: string, name: string, number: int, tail: seq<Token>)
    requires TypeName(key) && TypeName(value) && SimpleName(name)
    ensures ParseMapHead(scalars, RenderItem(MapItem(key, value, name, number)) + tail) ==
      if KeyAllowed(scalars, key) then Taken(MapHead(key, value, name, number), tail) else Bad
    ensures TextAt((RenderItem(MapItem(key, value, name, number)) + tail)[1..]) == "<"
  {
    NoDot(name);
    var first := [Word("map"), Punct("<"), Word(key), Punct(","), Word(value)];
    var second := [Punct(">"), Word(name), Punct("="), NumberToken(number), Punct(";")];
    Assoc(first, second, tail);
    MapOpens(key, value, second + tail);
    MapNames(name, number, tail);
  }

  // ---- message bodies ----

  /** The fields an item adds while the body is being read; a proto3 optional one
      is still without its oneof. */
  function RawFields(scalars: set<string>, item: ItemAst, scope: string, oneofs: nat): seq<FieldD> {
    match item
    case FieldItem(f) => [PlainField(scalars, f, scope, None)]
    case MapItem(_, _, name, number) => [MapField(name, number, scope)]
    case OneofItem(_, members) => MemberFields(scalars, members, scope, oneofs)
    case _ => []
  }

  lemma EnterOne(ledger: Ledger, e: Entry)
    ensures EnterAll(ledger, [e]) == Enter(ledger, e)
    ensures Admitted(ledger, [e]) <==> (e.Declares? && e.checked ==> e.full !in ledger.declared)
  {
    assert [e][1..] == [];
  }

  lemma EnterTwo(ledger: Ledger, e: Entry, f: Entry)
    requires f.Refers?
    ensures EnterAll(ledger, [e, f]) == Enter(Enter(ledger, e), f)
    ensures Admitted(ledger, [e, f]) <==> (e.Declares? && e.checked ==> e.full !in ledger.declared)
  {
    assert [e, f][1..] == [f];
    EnterOne(Enter(ledger, e), f);
  }

  /** A oneof's members only refer. */
  lemma {:induction false} MembersEntered(scalars: set<string>, members: seq<FieldAst>, scope: string, oneof: nat,
                                          ledger: Ledger)
    ensures ReferringAll(ledger, MemberFields(scalars, members, scope, oneof))
         == EnterAll(ledger, EntriesOfMembers(scalars, members, scope))
    ensures Admitted(ledger, EntriesOfMembers(scalars, members, scope))
    decreases members
  {
    if members != [] {
      var ty := TypeOf(scalars, members[0].typeName, scope);
      MembersEntered(scalars, members[1..], scope, oneof, Referring(ledger, ty));
      assert MemberFields(scalars, members, scope, oneof)[1..] == MemberFields(scalars, members[1..], scope, oneof);
      assert EntriesOfMembers(scalars, members, scope)[1..] == EntriesOfMembers(scalars, members[1..], scope);
    }
  }

  /** What reading one item makes of the body. */
  function AddItem(scalars: set<string>, proto3: bool, b: Body, item: ItemAst, scope: string): Body {
    Body(MessageD(b.m.name,
        b.m.fields + RawFields(scalars, item, scope, |b.m.oneofs|),
        b.m.nested + NestedIn(scalars, proto3, item, scope),
        b.m.enums + (if item.EnumItem? then [EnumOf(item.e)] else []),
        b.m.oneofs + (if item.OneofItem? then [item.name] else []),
        b.m.mapEntry),
      b.optional + if Synthetic(proto3, item) then [|b.m.fields|] else [])
  }

  lemma AddItemSound(scalars: set<string>, proto3: bool, b: Body, item: ItemAst, scope: string)
    requires Sound(b)
    ensures Sound(AddItem(scalars, proto3, b, item, scope))
  {
  }

  ghost predicate Reads(scalars: set<string>, proto3: bool, item: ItemAst, b: Body, full: string, ledger: Ledger,
                        tail: seq<Token>)
    requires Sound(b)
  {
    var ts := RenderItem(item) + tail;
    && ts != [] && ts[0].text != "}"
    && ParseItem(scalars, proto3, ts, b, full, ledger)
         == Parsed(AddItem(scalars, proto3, b, item, full), tail, EnterAll(ledger, EntriesOfItem(scalars, item, full)))
  }

  lemma FieldItemReads(scalars: set<string>, proto3: bool, f: FieldAst, b: Body, full: string, ledger: Ledger,
                       tail: seq<Token>)
    requires Sound(b) && FieldFits(f)
    ensures Reads(scalars, proto3, FieldItem(f), b, full, ledger, tail)
  {
    var ts := RenderField(f) + tail;
    FieldReads(scalars, proto3, f, full, None, tail);
    FieldStarts(f, tail);
    Nothing(b.m.nested, b.m.nested);
    Nothing(b.m.enums, b.m.enums);
    Nothing(b.m.oneofs, b.m.oneofs);
    EnterOne(ledger, Refers(TypeOf(scalars, f.typeName, full)));
    assert ParseItem(scalars, proto3, ts, b, full, ledger) == ParsePlain(scalars, proto3, ts, b, full, ledger);
  }

  /** A field never starts like anything else a body may hold. */
  lemma FieldStarts(f: FieldAst, tail: seq<Token>)
    requires FieldFits(f)
    ensures var ts := RenderField(f) + tail;
      && ts != [] && !BodyWord(ts[0].text) && ts[0].text != "}" && ts[0].text != ";"
      && !(ts[0].text == "map" && TextAt(ts[1..]) == "<")
  {
    NotPunct(f.typeName);
    SimpleIsType(f.name);
    NotPunct(f.name);
    var ts := RenderField(f) + tail;
    match f.modifier
    case Bare => assert ts[0] == Word(f.typeName) && ts[1] == Word(f.name);
    case Optional => assert ts[0] == Word("optional");
    case Repeated => assert ts[0] == Word("repeated");
    case Required => assert ts[0] == Word("required");
  }

  lemma EmptyItemReads(scalars: set<string>, proto3: bool, b: Body, full: string, ledger: Ledger, tail: seq<Token>)
    requires Sound(b)
    ensures Reads(scalars, proto3, EmptyItem, b, full, ledger, tail)
  {
    Unchanged(b);
    assert ([Punct(";")] + tail)[1..] == tail;
  }

  lemma Unchanged(b: Body)
    ensures b.m.fields + [] == b.m.fields && b.m.nested + [] == b.m.nested && b.m.enums + [] == b.m.enums
    ensures b.m.oneofs + [] == b.m.oneofs && b.optional + [] == b.optional
  {
  }

  lemma MapItemReads(scalars: set<string>, proto3: bool, item: ItemAst, b: Body, full: string, ledger: Ledger,
                     tail: seq<Token>)
    requires Sound(b) && item.MapItem? && ItemFits(item) && ItemAllowed(scalars, proto3, item)
    ensures Reads(scalars, proto3, item, b, full, ledger, tail)
  {
    var ts := RenderItem(item) + tail;
    Unchanged(b);
    MapHeadReads(scalars, item.key, item.value, item.name, item.number, tail);
    assert ts[0] == Word("map");
    assert ParseItem(scalars, proto3, ts, b, full, ledger) == ParseMap(scalars, ts, b, full, ledger);
    var entries := EntriesOfItem(scalars, item, full);
    EnterTwo(ledger, entries[0], entries[1]);
  }

  lemma OneofItemReads(scalars: set<string>, proto3: bool, item: ItemAst, b: Body, full: string, ledger: Ledger,
                       tail: seq<Token>)
    requires Sound(b) && item.OneofItem? && ItemFits(item) && ItemAllowed(scalars, proto3, item)
    ensures Reads(scalars, proto3, item, b, full, ledger, tail)
  {
    var ts := RenderItem(item) + tail;
    Unchanged(b);
    BlockOpens("oneof", item.name, RenderMembers(item.members), tail);
    MembersRead(scalars, proto3, item.members, full, |b.m.oneofs|, b.m.fields, tail);
    var added := MemberFields(scalars, item.members, full, |b.m.oneofs|);
    assert (b.m.fields + added)[|b.m.fields|..] == added;
    MembersEntered(scalars, item.members, full, |b.m.oneofs|, ledger);
    assert ParseItem(scalars, proto3, ts, b, full, ledger) == ParseOneof(scalars, proto3, ts, b, full, ledger);
  }

  lemma EnumItemReads(scalars: set<string>, proto3: bool, item: ItemAst, b: Body, full: string, ledger: Ledger,
                      tail: seq<Token>)
    requires Sound(b) && item.EnumItem? && ItemFits(item) && ItemAllowed(scalars, proto3, item)
    requires Admitted(ledger, EntriesOfItem(scalars, item, full))
    ensures Reads(scalars, proto3, item, b, full, ledger, tail)
  {
    var ts := RenderItem(item) + tail;
    Unchanged(b);
    BlockOpens("enum", item.e.name, RenderValues(item.e.values), tail);
    EnumReads(proto3, item.e, full, ledger, tail);
    EnterOne(ledger, EntriesOfItem(scalars, item, full)[0]);
  }

  lemma NestedItemReads(scalars: set<string>, proto3: bool, item: ItemAst, b: Body, full: string, ledger: Ledger,
                        tail: seq<Token>)
    requires Sound(b) && item.NestedItem?
    requires ParseMessage(scalars, proto3, RenderMessage(item.m) + tail, full, ledger)
      == Parsed(MessageOf(scalars, proto3, item.m, full), tail,
        EnterAll(ledger, EntriesOfMessage(scalars, item.m, full)))
    requires SimpleName(item.m.name)
    ensures Reads(scalars, proto3, item, b, full, ledger, tail)
  {
    var ts := RenderItem(item) + tail;
    Unchanged(b);
    BlockOpens("message", item.m.name, RenderItems(item.m.items), tail);
  }

  lemma {:induction false} ItemReads(scalars: set<string>, proto3: bool, item: ItemAst, b: Body, full: string,
                                     ledger: Ledger, tail: seq<Token>)
    requires Sound(b) && ItemFits(item) && ItemAllowed(scalars, proto3, item)
    requires Admitted(ledger, EntriesOfItem(scalars, item, full))
    ensures Reads(scalars, proto3, item, b, full, ledger, tail)
    decreases item, 0
  {
    match item
    case FieldItem(f) => FieldItemReads(scalars, proto3, f, b, full, ledger, tail);
    case MapItem(_, _, _, _) => MapItemReads(scalars, proto3, item, b, full, ledger, tail);
    case OneofItem(_, _) => OneofItemReads(scalars, proto3, item, b, full, ledger, tail);
    case EnumItem(_) => EnumItemReads(scalars, proto3, item, b, full, ledger, tail);
    case EmptyItem => EmptyItemReads(scalars, proto3, b, full, ledger, tail);
    case NestedItem(m) =>
      MessageReads(scalars, proto3, m, full, ledger, tail);
      NestedItemReads(scalars, proto3, item, b, full, ledger, tail);
  }

  function AddItems(scalars: set<string>, proto3: bool, b: Body, items: seq<ItemAst>, scope: string): (r: Body)
    requires Sound(b)
    ensures Sound(r)
    decreases items
  {
    AddItemsSound(scalars, proto3, b, items, scope);
    if items == [] then b
    else AddItems(scalars, proto3, AddItem(scalars, proto3, b, items[0], scope), items[1..], scope)
  }

  lemma AddItemsSound(scalars: set<string>, proto3: bool, b: Body, items: seq<ItemAst>, scope: string)
    requires Sound(b)
    ensures items != [] ==> Sound(AddItem(scalars, proto3, b, items[0], scope))
  {
    if items != [] { AddItemSound(scalars, proto3, b, items[0], scope); }
  }

  /** Reading one item and carrying on. */
  lemma BodyStep(scalars: set<string>, proto3: bool, item: ItemAst, b: Body, full: string, ledger: Ledger,
                 tail: seq<Token>)
    requires Sound(b) && Reads(scalars, proto3, item, b, full, ledger, tail)
    ensures Sound(AddItem(scalars, proto3, b, item, full))
    ensures ParseBody(scalars, proto3, RenderItem(item) + tail, b, full, ledger)
      == ParseBody(scalars, proto3, tail, AddItem(scalars, proto3, b, item, full), full,
        EnterAll(ledger, EntriesOfItem(scalars, item, full)))
  {
    AddItemSound(scalars, proto3, b, item, full);
  }

  lemma {:induction false} ItemsRead(scalars: set<string>, proto3: bool, items: seq<ItemAst>, b: Body, full: string,
                                     ledger: Ledger, tail: seq<Token>)
    requires Sound(b) && ItemsAllowed(scalars, proto3, items) && Admitted(ledger, EntriesOfItems(scalars, items, full))
    requires forall i :: 0 <= i < |items| ==> ItemFits(items[i])
    ensures var done := AddItems(scalars, proto3, b, items, full);
      ParseBody(scalars, proto3, RenderItems(items) + ([Punct("}")] + tail), b, full, ledger)
        == Parsed(Close(done.m, done.optional), tail, EnterAll(ledger, EntriesOfItems(scalars, items, full)))
    decreases items, 0
  {
    var end := [Punct("}")] + tail;
    if items == [] {
      Nothing(end, b.m.fields);
      assert end[1..] == tail;
    } else {
      var first, rest := items[0], items[1..];
      EnterTwice(ledger, EntriesOfItem(scalars, first, full), EntriesOfItems(scalars, rest, full));
      Assoc(RenderItem(first), RenderItems(rest), end);
      ItemReads(scalars, proto3, first, b, full, ledger, RenderItems(rest) + end);
      BodyStep(scalars, proto3, first, b, full, ledger, RenderItems(rest) + end);
      ItemsRead(scalars, proto3, rest, AddItem(scalars, proto3, b, first, full), full,
        EnterAll(ledger, EntriesOfItem(scalars, first, full)), tail);
    }
  }

  lemma {:induction false} MessageReads(scalars: set<string>, proto3: bool, m: MessageAst, scope: string,
                                        ledger: Ledger, tail: seq<Token>)
    requires MessageFits(m) && MessageAllowed(scalars, proto3, m)
    requires Admitted(ledger, EntriesOfMessage(scalars, m, scope))
    ensures ParseMessage(scalars, proto3, RenderMessage(m) + tail, scope, ledger)
      == Parsed(MessageOf(scalars, proto3, m, scope), tail, EnterAll(ledger, EntriesOfMessage(scalars, m, scope)))
    decreases m, 0
  {
    var full := Qualify(scope, m.name);
    var b := Body(MessageD(m.name, [], [], [], [], false), []);
    var d := EntriesOfMessage(scalars, m, scope);
    assert d[0] == Declares(full, IsMessage, true) && d[1..] == EntriesOfItems(scalars, m.items, full);
    BlockOpens("message", m.name, RenderItems(m.items), tail);
    ItemsRead(scalars, proto3, m.items, b, full, Declaring(ledger, full, IsMessage), tail);
    ClosedIs(scalars, proto3, m, scope);
  }

  // ---- what is refused ----

  ghost predicate Refuses(scalars: set<string>, proto3: bool, item: ItemAst, b: Body, full: string, ledger: Ledger,
                          tail: seq<Token>)
    requires Sound(b)
  {
    var ts := RenderItem(item) + tail;
    ts != [] && ts[0].text != "}" && ParseItem(scalars, proto3, ts, b, full, ledger) == Refused
  }

  lemma EnumItemRefused(scalars: set<string>, proto3: bool, item: ItemAst, b: Body, full: string, ledger: Ledger,
                        tail: seq<Token>)
    requires Sound(b) && ItemFits(item) && item.EnumItem?
    requires !ItemAllowed(scalars, proto3, item) || !Admitted(ledger, EntriesOfItem(scalars, item, full))
    ensures Refuses(scalars, proto3, item, b, full, ledger, tail)
  {
    BlockOpens("enum", item.e.name, RenderValues(item.e.values), tail);
    EnterOne(ledger, EntriesOfItem(scalars, item, full)[0]);
    if Qualify(full, item.e.name) !in ledger.declared { EnumReads(proto3, item.e, full, ledger, tail); }
  }

  lemma MapItemRefused(scalars: set<string>, proto3: bool, item: ItemAst, b: Body, full: string, ledger: Ledger,
                       tail: seq<Token>)
    requires Sound(b) && ItemFits(item) && item.MapItem? && !ItemAllowed(scalars, proto3, item)
    ensures Refuses(scalars, proto3, item, b, full, ledger, tail)
  {
    MapHeadReads(scalars, item.key, item.value, item.name, item.number, tail);
    assert (RenderItem(item) + tail)[0] == Word("map");
  }

  lemma OneofItemRefused(scalars: set<string>, proto3: bool, item: ItemAst, b: Body, full: string, ledger: Ledger,
                         tail: seq<Token>)
    requires Sound(b) && ItemFits(item) && item.OneofItem? && !ItemAllowed(scalars, proto3, item)
    ensures Refuses(scalars, proto3, item, b, full, ledger, tail)
  {
    BlockOpens("oneof", item.name, RenderMembers(item.members), tail);
    MembersRead(scalars, proto3, item.members, full, |b.m.oneofs|, b.m.fields, tail);
  }

  lemma {:induction false} ItemRefused(scalars: set<string>, proto3: bool, item: ItemAst, b: Body, full: string,
                                       ledger: Ledger, tail: seq<Token>)
    requires Sound(b) && ItemFits(item)
    requires !ItemAllowed(scalars, proto3, item) || !Admitted(ledger, EntriesOfItem(scalars, item, full))
    ensures Refuses(scalars, proto3, item, b, full, ledger, tail)
    decreases item, 0
  {
    if !item.EnumItem? && !item.NestedItem? { NeverRefused(scalars, item, full, ledger); }
    match item
    case EnumItem(_) => EnumItemRefused(scalars, proto3, item, b, full, ledger, tail);
    case MapItem(_, _, _, _) => MapItemRefused(scalars, proto3, item, b, full, ledger, tail);
    case OneofItem(_, _) => OneofItemRefused(scalars, proto3, item, b, full, ledger, tail);
    case NestedItem(m) =>
      BlockOpens("message", m.name, RenderItems(m.items), tail);
      MessageRefused(scalars, proto3, m, full, ledger, tail);
    case _ =>
  }

  /** Only nested messages and enums can be refused for their names; a map's entry never is. */
  lemma NeverRefused(scalars: set<string>, item: ItemAst, full: string, ledger: Ledger)
    requires !item.EnumItem? && !item.NestedItem?
    ensures Admitted(ledger, EntriesOfItem(scalars, item, full))
  {
    var entries := EntriesOfItem(scalars, item, full);
    match item
    case FieldItem(_) => EnterOne(ledger, entries[0]);
    case MapItem(_, _, _, _) => EnterTwo(ledger, entries[0], entries[1]);
    case OneofItem(_, members) => MembersEntered(scalars, members, full, 0, ledger);
    case EmptyItem =>
  }

  lemma {:induction false} ItemsRefused(scalars: set<string>, proto3: bool, items: seq<ItemAst>, b: Body, full: string,
                                        ledger: Ledger, tail: seq<Token>)
    requires Sound(b)
    requires !ItemsAllowed(scalars, proto3, items) || !Admitted(ledger, EntriesOfItems(scalars, items, full))
    requires forall i :: 0 <= i < |items| ==> ItemFits(items[i])
    ensures ParseBody(scalars, proto3, RenderItems(items) + ([Punct("}")] + tail), b, full, ledger) == Refused
    decreases items, 0
  {
    var first, rest, end := items[0], items[1..], [Punct("}")] + tail;
    EnterTwice(ledger, EntriesOfItem(scalars, first, full), EntriesOfItems(scalars, rest, full));
    Assoc(RenderItem(first), RenderItems(rest), end);
    if ItemAllowed(scalars, proto3, first) && Admitted(ledger, EntriesOfItem(scalars, first, full)) {
      ItemReads(scalars, proto3, first, b, full, ledger, RenderItems(rest) + end);
      BodyStep(scalars, proto3, first, b, full, ledger, RenderItems(rest) + end);
      ItemsRefused(scalars, proto3, rest, AddItem(scalars, proto3, b, first, full), full,
        EnterAll(ledger, EntriesOfItem(scalars, first, full)), tail);
    } else {
      ItemRefused(scalars, proto3, first, b, full, ledger, RenderItems(rest) + end);
    }
  }

  lemma {:induction false} MessageRefused(scalars: set<string>, proto3: bool, m: MessageAst, scope: string,
                                          ledger: Ledger, tail: seq<Token>)
    requires MessageFits(m)
    requires !MessageAllowed(scalars, proto3, m) || !Admitted(ledger, EntriesOfMessage(scalars, m, scope))
    ensures ParseMessage(scalars, proto3, RenderMessage(m) + tail, scope, ledger) == Refused
    decreases m, 0
  {
    var full := Qualify(scope, m.name);
    assert EntriesOfMessage(scalars, m, scope)[1..] == EntriesOfItems(scalars, m.items, full);
    BlockOpens("message", m.name, RenderItems(m.items), tail);
    if full !in ledger.declared {
      ItemsRefused(scalars, proto3, m.items, Body(MessageD(m.name, [], [], [], [], false), []), full,
        Declaring(ledger, full, IsMessage), tail);
    }
  }

  // ---- the closing brace ----

  function FieldCount(item: ItemAst): nat {
    match item
    case FieldItem(_) => 1
    case MapItem(_, _, _, _) => 1
    case OneofItem(_, members) => |members|
    case _ => 0
  }

  /** Positions of the proto3 optional fields, the first item's field being `at`. */
  function OptionalAt(proto3: bool, items: seq<ItemAst>, at: nat): seq<nat>
    decreases items
  {
    if items == [] then []
    else (if Synthetic(proto3, items[0]) then [at] else []) + OptionalAt(proto3, items[1..], at + FieldCount(items[0]))
  }

  function OneofCount(item: ItemAst): nat {
    if item.OneofItem? then 1 else 0
  }

  lemma RawFieldsFirst(scalars: set<string>, items: seq<ItemAst>, scope: string, oneofs: nat)
    requires items != []
    ensures FieldsOf(scalars, false, items, scope, oneofs, 0)
      == RawFields(scalars, items[0], scope, oneofs)
         + FieldsOf(scalars, false, items[1..], scope, oneofs + OneofCount(items[0]), 0)
    ensures |RawFields(scalars, items[0], scope, oneofs)| == FieldCount(items[0])
  {
    var rest := FieldsOf(scalars, false, items[1..], scope, oneofs + OneofCount(items[0]), 0);
    assert [] + rest == rest;
  }

  /** Everything read before the closing brace, as a whole. */
  function Unclosed(scalars: set<string>, proto3: bool, b: Body, items: seq<ItemAst>, scope: string): Body {
    Body(MessageD(b.m.name,
        b.m.fields + FieldsOf(scalars, false, items, scope, |b.m.oneofs|, 0),
        b.m.nested + NestedOf(scalars, proto3, items, scope),
        b.m.enums + EnumsOf(items),
        b.m.oneofs + OneofNames(items),
        b.m.mapEntry),
      b.optional + OptionalAt(proto3, items, |b.m.fields|))
  }

  lemma UnclosedStep(scalars: set<string>, proto3: bool, b: Body, items: seq<ItemAst>, scope: string)
    requires items != []
    ensures Unclosed(scalars, proto3, AddItem(scalars, proto3, b, items[0], scope), items[1..], scope)
      == Unclosed(scalars, proto3, b, items, scope)
  {
    var item, rest := items[0], items[1..];
    var raw := RawFields(scalars, item, scope, |b.m.oneofs|);
    RawFieldsFirst(scalars, items, scope, |b.m.oneofs|);
    Assoc(b.m.fields, raw, FieldsOf(scalars, false, rest, scope, |b.m.oneofs| + OneofCount(item), 0));
    Assoc(b.m.nested, NestedIn(scalars, proto3, item, scope), NestedOf(scalars, proto3, rest, scope));
    Assoc(b.m.enums, if item.EnumItem? then [EnumOf(item.e)] else [], EnumsOf(rest));
    Assoc(b.m.oneofs, if item.OneofItem? then [item.name] else [], OneofNames(rest));
    Assoc(b.optional, if Synthetic(proto3, item) then [|b.m.fields|] else [],
      OptionalAt(proto3, rest, |b.m.fields| + FieldCount(item)));
    assert |b.m.oneofs + (if item.OneofItem? then [item.name] else [])| == |b.m.oneofs| + OneofCount(item);
  }

  lemma {:induction false} AddedIs(scalars: set<string>, proto3: bool, b: Body, items: seq<ItemAst>, scope: string)
    requires Sound(b)
    ensures AddItems(scalars, proto3, b, items, scope) == Unclosed(scalars, proto3, b, items, scope)
    decreases items
  {
    if items == [] {
      Unchanged(b);
    } else {
      AddItemsSound(scalars, proto3, b, items, scope);
      AddedIs(scalars, proto3, AddItem(scalars, proto3, b, items[0], scope), items[1..], scope);
      UnclosedStep(scalars, proto3, b, items, scope);
    }
  }

  lemma UpdateAt<T>(before: seq<T>, x: T, y: T, after: seq<T>)
    ensures (before + ([x] + after))[|before| := y] == before + ([y] + after)
    ensures (before + [y]) + after == before + ([y] + after)
  {
  }

  /** One synthetic oneof per optional field, numbered in order after those of `m`. */
  lemma {:induction false} CloseFields(scalars: set<string>, proto3: bool, m: MessageD, before: seq<FieldD>,
                                       items: seq<ItemAst>, scope: string, oneofs: nat)
    requires m.fields == before + FieldsOf(scalars, false, items, scope, oneofs, 0)
    ensures Sound(Body(m, OptionalAt(proto3, items, |before|)))
    ensures Close(m, OptionalAt(proto3, items, |before|))
      == m.(fields := before + FieldsOf(scalars, proto3, items, scope, oneofs, |m.oneofs|),
            oneofs := m.oneofs + SyntheticNames(proto3, items))
    decreases items
  {
    if items == [] {
      Nothing(before, m.oneofs);
    } else {
      if Synthetic(proto3, items[0]) {
        CloseSynthetic(scalars, proto3, m, before, items, scope, oneofs);
      } else {
        ClosePlain(scalars, proto3, m, before, items, scope, oneofs);
      }
    }
  }

  lemma {:induction false} ClosePlain(scalars: set<string>, proto3: bool, m: MessageD, before: seq<FieldD>,
                                      items: seq<ItemAst>, scope: string, oneofs: nat)
    requires items != [] && !Synthetic(proto3, items[0])
    requires m.fields == before + FieldsOf(scalars, false, items, scope, oneofs, 0)
    ensures Sound(Body(m, OptionalAt(proto3, items, |before|)))
    ensures Close(m, OptionalAt(proto3, items, |before|))
      == m.(fields := before + FieldsOf(scalars, proto3, items, scope, oneofs, |m.oneofs|),
            oneofs := m.oneofs + SyntheticNames(proto3, items))
    decreases items, 0
  {
    var raw, rest := RawFields(scalars, items[0], scope, oneofs), items[1..];
    var count := oneofs + OneofCount(items[0]);
    assert m.fields == (before + raw) + FieldsOf(scalars, false, rest, scope, count, 0) by {
      RawFieldsFirst(scalars, items, scope, oneofs);
      Assoc(before, raw, FieldsOf(scalars, false, rest, scope, count, 0));
    }
    assert before + FieldsOf(scalars, proto3, items, scope, oneofs, |m.oneofs|)
        == (before + raw) + FieldsOf(scalars, proto3, rest, scope, count, |m.oneofs|) by {
      PlainFirst(scalars, proto3, items, scope, oneofs, |m.oneofs|);
      Assoc(before, raw, FieldsOf(scalars, proto3, rest, scope, count, |m.oneofs|));
    }
    assert |before + raw| == |before| + FieldCount(items[0]) by {
      RawFieldsFirst(scalars, items, scope, oneofs);
    }
    OptionalLater(proto3, items, |before|);
    CloseFields(scalars, proto3, m, before + raw, rest, scope, count);
  }

  lemma OptionalLater(proto3: bool, items: seq<ItemAst>, at: nat)
    requires items != [] && !Synthetic(proto3, items[0])
    ensures OptionalAt(proto3, items, at) == OptionalAt(proto3, items[1..], at + FieldCount(items[0]))
    ensures SyntheticNames(proto3, items) == SyntheticNames(proto3, items[1..])
  {
    Nothing(OptionalAt(proto3, items[1..], at + FieldCount(items[0])), items);
    Nothing(SyntheticNames(proto3, items[1..]), items);
  }

  lemma PlainFirst(scalars: set<string>, proto3: bool, items: seq<ItemAst>, scope: string, oneofs: nat, synthetic: nat)
    requires items != [] && !Synthetic(proto3, items[0])
    ensures FieldsOf(scalars, proto3, items, scope, oneofs, synthetic)
      == RawFields(scalars, items[0], scope, oneofs)
         + FieldsOf(scalars, proto3, items[1..], scope, oneofs + OneofCount(items[0]), synthetic)
  {
    var rest := FieldsOf(scalars, proto3, items[1..], scope, oneofs + OneofCount(items[0]), synthetic);
    assert [] + rest == rest;
  }

  lemma {:induction false} CloseSynthetic(scalars: set<string>, proto3: bool, m: MessageD, before: seq<FieldD>,
                                          items: seq<ItemAst>, scope: string, oneofs: nat)
    requires items != [] && Synthetic(proto3, items[0])
    requires m.fields == before + FieldsOf(scalars, false, items, scope, oneofs, 0)
    ensures Sound(Body(m, OptionalAt(proto3, items, |before|)))
    ensures Close(m, OptionalAt(proto3, items, |before|))
      == m.(fields := before + FieldsOf(scalars, proto3, items, scope, oneofs, |m.oneofs|),
            oneofs := m.oneofs + SyntheticNames(proto3, items))
    decreases items, 0
  {
    var f, rest := items[0].f, items[1..];
    var plain := PlainField(scalars, f, scope, None);
    var marked := plain.(oneof := Some(|m.oneofs|), proto3Optional := true);
    var after := FieldsOf(scalars, false, rest, scope, oneofs, 0);
    RawFieldsFirst(scalars, items, scope, oneofs);
    UpdateAt(before, plain, marked, after);
    var next := m.(oneofs := m.oneofs + ["_" + f.name], fields := m.fields[|before| := marked]);
    CloseFields(scalars, proto3, next, before + [marked], rest, scope, oneofs);
    OptionalFirst(proto3, items, |before|);
    assert m.fields[|before|] == plain;
    UpdateAt(before, plain, marked, FieldsOf(scalars, proto3, rest, scope, oneofs, |m.oneofs| + 1));
    Assoc(m.oneofs, ["_" + f.name], SyntheticNames(proto3, rest));
  }

  lemma OptionalFirst(proto3: bool, items: seq<ItemAst>, at: nat)
    requires items != [] && Synthetic(proto3, items[0])
    ensures var all := OptionalAt(proto3, items, at);
      all != [] && all[0] == at && all[1..] == OptionalAt(proto3, items[1..], at + 1)
  {
  }

  lemma ClosedIs(scalars: set<string>, proto3: bool, m: MessageAst, scope: string)
    ensures var full := Qualify(scope, m.name);
      var done := AddItems(scalars, proto3, Body(MessageD(m.name, [], [], [], [], false), []), m.items, full);
      Close(done.m, done.optional) == MessageOf(scalars, proto3, m, scope)
  {
    var full := Qualify(scope, m.name);
    var b := Body(MessageD(m.name, [], [], [], [], false), []);
    AddedIs(scalars, proto3, b, m.items, full);
    var done := Unclosed(scalars, proto3, b, m.items, full);
    FromNothing(scalars, proto3, b, m.items, full);
    CloseFields(scalars, proto3, done.m, [], m.items, full, 0);
    Nothing(FieldsOf(scalars, proto3, m.items, full, 0, |OneofNames(m.items)|), m.items);
  }

  lemma FromNothing(scalars: set<string>, proto3: bool, b: Body, items: seq<ItemAst>, scope: string)
    requires b.m.fields == [] && b.m.nested == [] && b.m.enums == [] && b.m.oneofs == [] && b.optional == []
    ensures Unclosed(scalars, proto3, b, items, scope)
      == Body(MessageD(b.m.name, [] + FieldsOf(scalars, false, items, scope, 0, 0),
        NestedOf(scalars, proto3, items, scope),
                       EnumsOf(items), OneofNames(items), b.m.mapEntry),
              OptionalAt(proto3, items, 0))
  {
    Nothing(NestedOf(scalars, proto3, items, scope), items);
    Nothing(EnumsOf(items), items);
    Nothing(OneofNames(items), items);
    Nothing(OptionalAt(proto3, items, 0), items);
  }
}
