/** Schemas three times over: as syntax trees, as tokens and as descriptors. */
module ProtoSyntax {
  import opened Common

  /** A token. A number carries the integer that reading it yields, if any. */
  datatype Token =
    | Word(text: string)
    | Number(text: string, value: Option<int>)
    | Quoted(text: string)
    | Punct(text: string)

  // ---- syntax trees ----

  datatype Modifier = Bare | Optional | Repeated | Required

  datatype FieldAst = FieldAst(modifier: Modifier, typeName: string, name: string, number: int)

  datatype ItemAst =
    | FieldItem(f: FieldAst)
    | MapItem(key: string, value: string, name: string, number: int)
    | OneofItem(name: string, members: seq<FieldAst>)
    | NestedItem(m: MessageAst)
    | EnumItem(e: EnumAst)
    | EmptyItem

  datatype MessageAst = MessageAst(name: string, items: seq<ItemAst>)

  datatype ValueAst = ValueAst(name: string, number: int)

  datatype EnumAst = EnumAst(name: string, values: seq<ValueAst>)

  datatype RpcAst = RpcAst(name: string, clientStream: bool, input: string, serverStream: bool, output: string)

  datatype ServiceAst = ServiceAst(name: string, rpcs: seq<RpcAst>)

  datatype DeclAst = MessageDecl(m: MessageAst) | EnumDecl(e: EnumAst) | ServiceDecl(s: ServiceAst)

  datatype FileAst = FileAst(proto3: bool, package: string, decls: seq<DeclAst>)

  // ---- descriptors ----

  datatype Cardinality = OptionalLabel | RepeatedLabel | RequiredLabel

  /** A field's type: a scalar, a reference still to be resolved, or what it resolved to. */
  datatype Ty =
    | ScalarTy(name: string)
    | Pending(name: string, scope: string)
    | MessageTy(full: string)
    | EnumTy(full: string)

  datatype FieldD = FieldD(name: string, jsonName: string, number: int, cardinality: Cardinality, ty: Ty,
                           oneof: Option<nat>, proto3Optional: bool)

  datatype EnumD = EnumD(name: string, values: seq<ValueAst>)

  datatype MessageD = MessageD(name: string, fields: seq<FieldD>, nested: seq<MessageD>, enums: seq<EnumD>,
                               oneofs: seq<string>, mapEntry: bool)

  datatype MethodD = MethodD(name: string, clientStreaming: bool, input: Ty, serverStreaming: bool, output: Ty)

  datatype ServiceD = ServiceD(name: string, methods: seq<MethodD>)

  datatype FileD = FileD(package: string, proto3: bool, messages: seq<MessageD>, enums: seq<EnumD>,
                         services: seq<ServiceD>)

  // ---- names ----

  function Qualify(scope: string, name: string): string {
    if scope == "" then name else scope + "." + name
  }

  function UpperChar(c: char): char {
    if 'a' <= c <= 'z' then c - 'a' + 'A' else c
  }

  /** Drops underscores and capitalises what follows each. */
  function Camel(name: string, up: bool): string {
    if name == "" then ""
    else if name[0] == '_' then Camel(name[1..], true)
    else [if up then UpperChar(name[0]) else name[0]] + Camel(name[1..], false)
  }

  function Capital(name: string): string {
    if name == "" then "" else [UpperChar(name[0])] + name[1..]
  }

  lemma {:induction false} CamelOfPart(part: string, up: bool)
    requires '_' !in part
    ensures Camel(part, up) == if up then Capital(part) else part
    decreases part
  {
    if part != "" {
      CamelOfPart(part[1..], false);
      assert part == [part[0]] + part[1..];
    }
  }

  lemma CamelCons(c: char, rest: string, up: bool)
    ensures Camel([c] + rest, up)
      == if c == '_' then Camel(rest, true) else [if up then UpperChar(c) else c] + Camel(rest, false)
  {
    assert ([c] + rest)[0] == c && ([c] + rest)[1..] == rest;
  }

  lemma Rejoin<T>(first: T, middle: seq<T>, rest: seq<T>)
    ensures ([first] + middle) + rest == [first] + (middle + rest)
  {
  }

  /** Both names are made of the parts between underscores: each part capitalised,
      the first one only on request. */
  lemma {:induction false} CamelByParts(part: string, rest: string, up: bool)
    requires '_' !in part
    ensures Camel(part + (['_'] + rest), up) == (if up then Capital(part) else part) + Camel(rest, true)
    decreases part
  {
    var tail := ['_'] + rest;
    CamelCons('_', rest, up);
    if part == "" {
      assert part + tail == tail;
      assert part + Camel(rest, true) == Camel(rest, true);
    } else {
      var c := part[0];
      assert part == [c] + part[1..];
      Rejoin(c, part[1..], tail);
      CamelCons(c, part[1..] + tail, up);
      CamelByParts(part[1..], rest, false);
      Rejoin(if up then UpperChar(c) else c, part[1..], Camel(rest, true));
    }
  }

  /** A map's entry is named after the field's JSON name. */
  lemma {:induction false} EntryNamedAfterJson(name: string)
    ensures MapEntryName(name) == Capital(JsonName(name)) + "Entry"
    ensures '_' !in JsonName(name)
  {
    CamelCapital(name);
  }

  lemma {:induction false} CamelCapital(name: string)
    ensures Camel(name, true) == Capital(Camel(name, false)) == Capital(Camel(name, true))
    ensures forall up :: '_' !in Camel(name, up)
  {
    if name != "" { CamelCapital(name[1..]); }
  }

  function JsonName(name: string): string {
    Camel(name, false)
  }

  function MapEntryName(name: string): string {
    Camel(name, true) + "Entry"
  }

  predicate NameChar(c: char) {
    'a' <= c <= 'z' || 'A' <= c <= 'Z' || '0' <= c <= '9' || c == '_'
  }

  predicate SimpleName(s: string) {
    s != "" && forall i :: 0 <= i < |s| ==> NameChar(s[i])
  }

  /** A possibly dotted name. */
  predicate TypeName(s: string) {
    s != "" && forall i :: 0 <= i < |s| ==> NameChar(s[i]) || s[i] == '.'
  }

  // ---- rendering ----

  function Numeral(n: int): (s: string)
    ensures s != "" && '0' <= s[|s| - 1] <= '9'
    decreases if n < 0 then 1 - n else n
  {
    if n < 0 then "-" + Numeral(-n)
    else if n < 10 then [n as char + '0']
    else Numeral(n / 10) + [(n % 10) as char + '0']
  }

  function NumberToken(n: int): Token {
    Number(Numeral(n), Some(n))
  }

  function RenderModifier(m: Modifier): seq<Token> {
    match m
    case Bare => []
    case Optional => [Word("optional")]
    case Repeated => [Word("repeated")]
    case Required => [Word("required")]
  }

  function RenderField(f: FieldAst): seq<Token> {
    RenderModifier(f.modifier) + [Word(f.typeName), Word(f.name), Punct("="), NumberToken(f.number), Punct(";")]
  }

  function RenderMembers(members: seq<FieldAst>): seq<Token> {
    if members == [] then [] else RenderField(members[0]) + RenderMembers(members[1..])
  }

  function RenderValues(values: seq<ValueAst>): seq<Token> {
    if values == [] then []
    else [Word(values[0].name), Punct("="), NumberToken(values[0].number), Punct(";")] + RenderValues(values[1..])
  }

  function RenderEnum(e: EnumAst): seq<Token> {
    [Word("enum"), Word(e.name), Punct("{")] + RenderValues(e.values) + [Punct("}")]
  }

  function RenderItem(i: ItemAst): seq<Token>
    decreases i
  {
    match i
    case FieldItem(f) => RenderField(f)
    case MapItem(key, value, name, number) =>
      [Word("map"), Punct("<"), Word(key), Punct(","), Word(value)]
        + [Punct(">"), Word(name), Punct("="), NumberToken(number), Punct(";")]
    case OneofItem(name, members) =>
      [Word("oneof"), Word(name), Punct("{")] + RenderMembers(members) + [Punct("}")]
    case NestedItem(m) => RenderMessage(m)
    case EnumItem(e) => RenderEnum(e)
    case EmptyItem => [Punct(";")]
  }

  function RenderItems(items: seq<ItemAst>): seq<Token>
    decreases items
  {
    if items == [] then [] else RenderItem(items[0]) + RenderItems(items[1..])
  }

  function RenderMessage(m: MessageAst): seq<Token>
    decreases m
  {
    [Word("message"), Word(m.name), Punct("{")] + RenderItems(m.items) + [Punct("}")]
  }

  function RenderArgument(stream: bool, typeName: string): seq<Token> {
    [Punct("(")] + (if stream then [Word("stream")] else []) + [Word(typeName), Punct(")")]
  }

  function RenderRpc(r: RpcAst): seq<Token> {
    [Word("rpc"), Word(r.name)] + RenderArgument(r.clientStream, r.input)
      + [Word("returns")] + RenderArgument(r.serverStream, r.output) + [Punct(";")]
  }

  function RenderRpcs(rpcs: seq<RpcAst>): seq<Token> {
    if rpcs == [] then [] else RenderRpc(rpcs[0]) + RenderRpcs(rpcs[1..])
  }

  function RenderDecl(d: DeclAst): seq<Token> {
    match d
    case MessageDecl(m) => RenderMessage(m)
    case EnumDecl(e) => RenderEnum(e)
    case ServiceDecl(s) => [Word("service"), Word(s.name), Punct("{")] + RenderRpcs(s.rpcs) + [Punct("}")]
  }

  function RenderDecls(decls: seq<DeclAst>): seq<Token> {
    if decls == [] then [] else RenderDecl(decls[0]) + RenderDecls(decls[1..])
  }

  function RenderFile(f: FileAst): seq<Token> {
    [Word("syntax"), Punct("="), Quoted(if f.proto3 then "proto3" else "proto2"), Punct(";")]
      + (if f.package == "" then [] else [Word("package"), Word(f.package), Punct(";")])
      + RenderDecls(f.decls)
  }

  // ---- the descriptor a tree stands for, references unresolved ----

  function TypeOf(scalars: set<string>, name: string, scope: string): Ty {
    if name in scalars then ScalarTy(name) else Pending(name, scope)
  }

  function LabelOf(m: Modifier): Cardinality {
    match m
    case Repeated => RepeatedLabel
    case Required => RequiredLabel
    case _ => OptionalLabel
  }

  function PlainField(scalars: set<string>, f: FieldAst, scope: string, oneof: Option<nat>): FieldD {
    FieldD(f.name, JsonName(f.name), f.number, LabelOf(f.modifier), TypeOf(scalars, f.typeName, scope), oneof, false)
  }

  function MapField(name: string, number: int, scope: string): FieldD {
    FieldD(name, JsonName(name), number, RepeatedLabel, MessageTy(Qualify(scope, MapEntryName(name))), None, false)
  }

  function MapEntry(scalars: set<string>, key: string, value: string, name: string, scope: string): MessageD {
    var full := Qualify(scope, MapEntryName(name));
    MessageD(MapEntryName(name),
      [FieldD("key", "key", 1, OptionalLabel, ScalarTy(key), None, false),
       FieldD("value", "value", 2, OptionalLabel, TypeOf(scalars, value, full), None, false)],
      [], [], [], true)
  }

  function MemberFields(scalars: set<string>, members: seq<FieldAst>, scope: string, oneof: nat): (r: seq<FieldD>)
    ensures |r| == |members|
  {
    if members == [] then []
    else [PlainField(scalars, members[0], scope, Some(oneof))] + MemberFields(scalars, members[1..], scope, oneof)
  }

  function OneofNames(items: seq<ItemAst>): seq<string> {
    if items == [] then []
    else (if items[0].OneofItem? then [items[0].name] else []) + OneofNames(items[1..])
  }

  predicate Synthetic(proto3: bool, i: ItemAst) {
    proto3 && i.FieldItem? && i.f.modifier.Optional?
  }

  /** One synthetic oneof per proto3 optional field. */
  function SyntheticNames(proto3: bool, items: seq<ItemAst>): seq<string> {
    if items == [] then []
    else (if Synthetic(proto3, items[0]) then ["_" + items[0].f.name] else []) + SyntheticNames(proto3, items[1..])
  }

  /** The fields in order: a oneof's members carry its number among the oneofs, and
      proto3 optional fields the numbers from `synthetic` on. */
  function FieldsOf(scalars: set<string>, proto3: bool, items: seq<ItemAst>, scope: string, oneofs: nat,
                    synthetic: nat): seq<FieldD> {
    if items == [] then []
    else
      match items[0]
      case FieldItem(f) =>
        if Synthetic(proto3, items[0]) then
          [PlainField(scalars, f, scope, Some(synthetic)).(proto3Optional := true)]
            + FieldsOf(scalars, proto3, items[1..], scope, oneofs, synthetic + 1)
        else
          [PlainField(scalars, f, scope, None)] + FieldsOf(scalars, proto3, items[1..], scope, oneofs, synthetic)
      case MapItem(_, _, name, number) =>
        [MapField(name, number, scope)] + FieldsOf(scalars, proto3, items[1..], scope, oneofs, synthetic)
      case OneofItem(_, members) =>
        MemberFields(scalars, members, scope, oneofs)
          + FieldsOf(scalars, proto3, items[1..], scope, oneofs + 1, synthetic)
      case _ => FieldsOf(scalars, proto3, items[1..], scope, oneofs, synthetic)
  }

  function NestedOf(scalars: set<string>, proto3: bool, items: seq<ItemAst>, scope: string): seq<MessageD>
    decreases items
  {
    if items == [] then []
    else NestedIn(scalars, proto3, items[0], scope) + NestedOf(scalars, proto3, items[1..], scope)
  }

  function NestedIn(scalars: set<string>, proto3: bool, item: ItemAst, scope: string): seq<MessageD>
    decreases item
  {
    match item
    case MapItem(key, value, name, _) => [MapEntry(scalars, key, value, name, scope)]
    case NestedItem(m) => [MessageOf(scalars, proto3, m, scope)]
    case _ => []
  }

  function EnumOf(e: EnumAst): EnumD {
    EnumD(e.name, e.values)
  }

  function EnumsOf(items: seq<ItemAst>): seq<EnumD> {
    if items == [] then []
    else (if items[0].EnumItem? then [EnumOf(items[0].e)] else []) + EnumsOf(items[1..])
  }

  function MessageOf(scalars: set<string>, proto3: bool, m: MessageAst, scope: string): MessageD
    decreases m
  {
    var full := Qualify(scope, m.name);
    MessageD(m.name,
      FieldsOf(scalars, proto3, m.items, full, 0, |OneofNames(m.items)|),
      NestedOf(scalars, proto3, m.items, full),
      EnumsOf(m.items),
      OneofNames(m.items) + SyntheticNames(proto3, m.items),
      false)
  }

  function MethodsOf(rpcs: seq<RpcAst>, package: string): seq<MethodD> {
    seq(|rpcs|, i requires 0 <= i < |rpcs| =>
      MethodD(rpcs[i].name, rpcs[i].clientStream, Pending(rpcs[i].input, package), rpcs[i].serverStream,
        Pending(rpcs[i].output, package)))
  }

  function FileOf(scalars: set<string>, f: FileAst): FileD {
    DeclsOf(scalars, FileD(f.package, f.proto3, [], [], []), f.decls)
  }

  function DeclsOf(scalars: set<string>, file: FileD, decls: seq<DeclAst>): FileD
    decreases decls
  {
    if decls == [] then file else DeclsOf(scalars, WithDecl(scalars, file, decls[0]), decls[1..])
  }

  function WithDecl(scalars: set<string>, file: FileD, d: DeclAst): FileD {
    match d
    case MessageDecl(m) => file.(messages := file.messages + [MessageOf(scalars, file.proto3, m, file.package)])
    case EnumDecl(e) => file.(enums := file.enums + [EnumOf(e)])
    case ServiceDecl(s) => file.(services := file.services + [ServiceD(s.name, MethodsOf(s.rpcs, file.package))])
  }

  // ---- what a tree declares and refers to, in order ----

  datatype DeclKind = IsMessage | IsEnum | IsService

  type Names = map<string, DeclKind>

  /** What is kept while a file is read: the names it declares, and the field types
      still to be resolved, in the order they were met. */
  datatype Ledger = Ledger(declared: Names, pending: seq<Ty>)

  const EMPTY_LEDGER: Ledger := Ledger(map[], [])

  /** An entry in the ledger; only a map's entry type is entered without checking
      that its name is free, and only a type that is no scalar is kept. */
  datatype Entry = Declares(full: string, kind: DeclKind, checked: bool) | Refers(ty: Ty)

  function Declaring(ledger: Ledger, full: string, kind: DeclKind): Ledger {
    ledger.(declared := ledger.declared[full := kind])
  }

  function Referring(ledger: Ledger, ty: Ty): Ledger {
    if ty.Pending? then ledger.(pending := ledger.pending + [ty]) else ledger
  }

  function Enter(ledger: Ledger, e: Entry): Ledger {
    match e
    case Declares(full, kind, _) => Declaring(ledger, full, kind)
    case Refers(ty) => Referring(ledger, ty)
  }

  function EntriesOfMembers(scalars: set<string>, members: seq<FieldAst>, scope: string): seq<Entry> {
    if members == [] then []
    else [Refers(TypeOf(scalars, members[0].typeName, scope))] + EntriesOfMembers(scalars, members[1..], scope)
  }

  function EntriesOfItem(scalars: set<string>, item: ItemAst, scope: string): seq<Entry>
    decreases item
  {
    match item
    case FieldItem(f) => [Refers(TypeOf(scalars, f.typeName, scope))]
    case MapItem(_, value, name, _) =>
      var full := Qualify(scope, MapEntryName(name));
      [Declares(full, IsMessage, false), Refers(TypeOf(scalars, value, full))]
    case OneofItem(_, members) => EntriesOfMembers(scalars, members, scope)
    case NestedItem(m) => EntriesOfMessage(scalars, m, scope)
    case EnumItem(e) => [Declares(Qualify(scope, e.name), IsEnum, true)]
    case EmptyItem => []
  }

  function EntriesOfItems(scalars: set<string>, items: seq<ItemAst>, scope: string): seq<Entry>
    decreases items
  {
    if items == [] then [] else EntriesOfItem(scalars, items[0], scope) + EntriesOfItems(scalars, items[1..], scope)
  }

  function EntriesOfMessage(scalars: set<string>, m: MessageAst, scope: string): seq<Entry>
    decreases m
  {
    [Declares(Qualify(scope, m.name), IsMessage, true)] + EntriesOfItems(scalars, m.items, Qualify(scope, m.name))
  }

  function EntriesOfDecl(scalars: set<string>, d: DeclAst, package: string): seq<Entry> {
    match d
    case MessageDecl(m) => EntriesOfMessage(scalars, m, package)
    case EnumDecl(e) => [Declares(Qualify(package, e.name), IsEnum, true)]
    case ServiceDecl(s) => [Declares(Qualify(package, s.name), IsService, true)]
  }

  function EntriesOfDecls(scalars: set<string>, decls: seq<DeclAst>, package: string): seq<Entry> {
    if decls == [] then [] else EntriesOfDecl(scalars, decls[0], package) + EntriesOfDecls(scalars, decls[1..], package)
  }

  function EnterAll(ledger: Ledger, more: seq<Entry>): Ledger
    decreases more
  {
    if more == [] then ledger else EnterAll(Enter(ledger, more[0]), more[1..])
  }

  /** No declaration that is checked repeats a name declared before it. */
  predicate Admitted(ledger: Ledger, more: seq<Entry>)
    decreases more
  {
    more == []
    || (&& (more[0].Declares? && more[0].checked ==> more[0].full !in ledger.declared)
        && Admitted(Enter(ledger, more[0]), more[1..]))
  }

  lemma {:induction false} EnterTwice(ledger: Ledger, a: seq<Entry>, b: seq<Entry>)
    ensures EnterAll(ledger, a + b) == EnterAll(EnterAll(ledger, a), b)
    ensures Admitted(ledger, a + b) <==> Admitted(ledger, a) && Admitted(EnterAll(ledger, a), b)
    decreases a
  {
    if a == [] {
      assert a + b == b;
    } else {
      assert (a + b)[1..] == a[1..] + b;
      EnterTwice(Enter(ledger, a[0]), a[1..], b);
    }
  }

  // ---- the supported trees ----

  /** Words that start something other than a field in a message body. */
  predicate BodyWord(s: string) {
    s in ["message", "enum", "option", "oneof", "reserved", "extensions", "extend", "group"]
  }

  predicate ModifierWord(s: string) {
    s in ["repeated", "optional", "required"]
  }

  predicate FieldFits(f: FieldAst) {
    && TypeName(f.typeName) && SimpleName(f.name)
    && (f.modifier.Bare? ==> !BodyWord(f.typeName) && !ModifierWord(f.typeName))
  }

  predicate EnumFits(e: EnumAst) {
    SimpleName(e.name) && forall i :: 0 <= i < |e.values| ==> ValueFits(e.values[i])
  }

  predicate ValueFits(v: ValueAst) {
    SimpleName(v.name) && v.name != "option" && v.name != "reserved"
  }

  predicate KeyFits(scalars: set<string>, key: string) {
    key in scalars && key !in ["float", "double", "bytes"]
  }

  predicate ItemFits(i: ItemAst)
    decreases i
  {
    match i
    case FieldItem(f) => FieldFits(f)
    case MapItem(key, value, name, _) => TypeName(key) && TypeName(value) && SimpleName(name)
    case OneofItem(name, members) => SimpleName(name) && forall k :: 0 <= k < |members| ==> FieldFits(members[k])
    case NestedItem(m) => MessageFits(m)
    case EnumItem(e) => EnumFits(e)
    case EmptyItem => true
  }

  predicate MessageFits(m: MessageAst)
    decreases m
  {
    SimpleName(m.name) && forall i :: 0 <= i < |m.items| ==> ItemFits(m.items[i])
  }

  predicate RpcFits(r: RpcAst) {
    && SimpleName(r.name) && TypeName(r.input) && TypeName(r.output)
    && (!r.clientStream ==> r.input != "stream") && (!r.serverStream ==> r.output != "stream")
  }

  predicate DeclFits(d: DeclAst) {
    match d
    case MessageDecl(m) => MessageFits(m)
    case EnumDecl(e) => EnumFits(e)
    case ServiceDecl(s) => SimpleName(s.name) && forall i :: 0 <= i < |s.rpcs| ==> RpcFits(s.rpcs[i])
  }

  predicate FileFits(f: FileAst) {
    && (f.package == "" || (TypeName(f.package) && f.package[0] != '.'))
    && (forall i :: 0 <= i < |f.decls| ==> DeclFits(f.decls[i]))
  }

  // ---- what the language allows ----

  /** A member of a oneof is neither repeated nor required. */
  predicate MemberAllowed(f: FieldAst) {
    f.modifier.Bare? || f.modifier.Optional?
  }

  /** The first value of a proto3 enum is zero. */
  predicate EnumAllowed(proto3: bool, e: EnumAst) {
    proto3 && e.values != [] ==> e.values[0].number == 0
  }

  /** A map's key is of a scalar type that compares exactly. */
  predicate KeyAllowed(scalars: set<string>, key: string) {
    key in scalars && key != "float" && key != "double" && key != "bytes"
  }

  predicate ItemAllowed(scalars: set<string>, proto3: bool, i: ItemAst)
    decreases i
  {
    match i
    case MapItem(key, _, _, _) => KeyAllowed(scalars, key)
    case OneofItem(_, members) => MembersAllowed(members)
    case NestedItem(m) => MessageAllowed(scalars, proto3, m)
    case EnumItem(e) => EnumAllowed(proto3, e)
    case _ => true
  }

  predicate MembersAllowed(members: seq<FieldAst>) {
    forall k :: 0 <= k < |members| ==> MemberAllowed(members[k])
  }

  predicate ItemsAllowed(scalars: set<string>, proto3: bool, items: seq<ItemAst>)
    decreases items
  {
    items == [] || (ItemAllowed(scalars, proto3, items[0]) && ItemsAllowed(scalars, proto3, items[1..]))
  }

  predicate MessageAllowed(scalars: set<string>, proto3: bool, m: MessageAst)
    decreases m
  {
    ItemsAllowed(scalars, proto3, m.items)
  }

  predicate DeclAllowed(scalars: set<string>, proto3: bool, d: DeclAst) {
    match d
    case MessageDecl(m) => MessageAllowed(scalars, proto3, m)
    case EnumDecl(e) => EnumAllowed(proto3, e)
    case ServiceDecl(_) => true
  }

  predicate DeclsAllowed(scalars: set<string>, proto3: bool, decls: seq<DeclAst>)
    decreases decls
  {
    decls == [] || (DeclAllowed(scalars, proto3, decls[0]) && DeclsAllowed(scalars, proto3, decls[1..]))
  }
}
