/** The ledger a parse ends with holds exactly the references of the file it built. */
module ProtoReferences {
  import opened Common
  import opened ProtoSyntax
  import opened ProtoGrammar
  import opened NameResolution

  function Kept(ledger: Ledger): set<Ty> {
    set ty | ty in ledger.pending
  }

  lemma ReferringKeeps(ledger: Ledger, ty: Ty)
    ensures Kept(Referring(ledger, ty)) == Kept(ledger) + if ty.Pending? then {ty} else {}
  {
  }

  lemma {:induction false} ReferringAllKeeps(ledger: Ledger, fields: seq<FieldD>)
    ensures Kept(ReferringAll(ledger, fields)) == Kept(ledger) + FieldTys(fields)
    decreases fields
  {
    if fields != [] {
      ReferringKeeps(ledger, fields[0].ty);
      ReferringAllKeeps(Referring(ledger, fields[0].ty), fields[1..]);
      assert fields == [fields[0]] + fields[1..];
      FieldTysAppend([fields[0]], fields[1..]);
      OneFieldTy(fields[0]);
    }
  }

  lemma OneFieldTy(f: FieldD)
    ensures FieldTys([f]) == if f.ty.Pending? then {f.ty} else {}
  {
    assert f in [f];
  }

  /** The ledger holds what it held before the message, and the message's references. */
  ghost predicate Accounts(ledger: Ledger, before: set<Ty>, m: MessageD) {
    Kept(ledger) == before + MessageTys(m)
  }

  lemma {:induction false} CloseKeeps(m: MessageD, optional: seq<nat>)
    requires Sound(Body(m, optional))
    ensures MessageTys(Close(m, optional)) == MessageTys(m)
    decreases |optional|
  {
    if optional != [] {
      var i := optional[0];
      var field := m.fields[i].(oneof := Some(|m.oneofs|), proto3Optional := true);
      var next := m.(oneofs := m.oneofs + ["_" + m.fields[i].name], fields := m.fields[i := field]);
      CloseKeeps(next, optional[1..]);
      MarkKeeps(m.fields, i, field);
    }
  }

  lemma MarkKeeps(fields: seq<FieldD>, i: nat, field: FieldD)
    requires i < |fields| && field.ty == fields[i].ty
    ensures FieldTys(fields[i := field]) == FieldTys(fields)
  {
    var after := fields[i := field];
    forall ty | ty in FieldTys(fields)
      ensures ty in FieldTys(after)
    {
      var f :| f in fields && f.ty.Pending? && f.ty == ty;
      var k :| 0 <= k < |fields| && fields[k] == f;
      assert after[k] in after && after[k].ty == ty;
    }
    forall ty | ty in FieldTys(after)
      ensures ty in FieldTys(fields)
    {
      var f :| f in after && f.ty.Pending? && f.ty == ty;
      var k :| 0 <= k < |after| && after[k] == f;
      assert fields[k] in fields && fields[k].ty == ty;
    }
  }

  lemma {:induction false} MessageAccounts(scalars: set<string>, proto3: bool, ts: seq<Token>, scope: string,
                                           ledger: Ledger)
    ensures var r := ParseMessage(scalars, proto3, ts, scope, ledger);
      r.Parsed? ==> Accounts(r.ledger, Kept(ledger), r.value)
    decreases |ts|, 0
  {
    var h := ParseHead(ts, "message");
    if h.Taken? {
      var full := Qualify(scope, h.value);
      BodyAccounts(scalars, proto3, h.rest, Body(MessageD(h.value, [], [], [], [], false), []), full,
        Declaring(ledger, full, IsMessage), Kept(ledger));
    }
  }

  lemma {:induction false} BodyAccounts(scalars: set<string>, proto3: bool, ts: seq<Token>, b: Body, full: string,
                                        ledger: Ledger, before: set<Ty>)
    requires Sound(b) && Accounts(ledger, before, b.m)
    ensures var r := ParseBody(scalars, proto3, ts, b, full, ledger);
      r.Parsed? ==> Accounts(r.ledger, before, r.value)
    decreases |ts|, 2
  {
    if ts != [] {
      if ts[0].text == "}" {
        CloseKeeps(b.m, b.optional);
      } else {
        ItemAccounts(scalars, proto3, ts, b, full, ledger, before);
        var r := ParseItem(scalars, proto3, ts, b, full, ledger);
        if r.Parsed? { BodyAccounts(scalars, proto3, r.rest, r.value, full, r.ledger, before); }
      }
    }
  }

  lemma {:induction false} ItemAccounts(scalars: set<string>, proto3: bool, ts: seq<Token>, b: Body, full: string,
                                        ledger: Ledger, before: set<Ty>)
    requires Sound(b) && ts != [] && Accounts(ledger, before, b.m)
    ensures var r := ParseItem(scalars, proto3, ts, b, full, ledger);
      r.Parsed? ==> Accounts(r.ledger, before, r.value.m)
    decreases |ts|, 1
  {
    MessageAccounts(scalars, proto3, ts, full, ledger);
    var r := ParseMessage(scalars, proto3, ts, full, ledger);
    if r.Parsed? { MessagesTysAppend(b.m.nested, r.value); }
    OneofAccounts(scalars, proto3, ts, b, full, ledger, before);
    MapAccounts(scalars, ts, b, full, ledger, before);
    PlainAccounts(scalars, proto3, ts, b, full, ledger, before);
  }

  lemma OneofAccounts(scalars: set<string>, proto3: bool, ts: seq<Token>, b: Body, full: string, ledger: Ledger,
                      before: set<Ty>)
    requires Sound(b) && Accounts(ledger, before, b.m)
    ensures var r := ParseOneof(scalars, proto3, ts, b, full, ledger);
      r.Parsed? ==> Accounts(r.ledger, before, r.value.m)
  {
    var h := ParseHead(ts, "oneof");
    if h.Taken? {
      MembersExtend(scalars, proto3, h.rest, full, |b.m.oneofs|, b.m.fields);
      var r := ParseMembers(scalars, proto3, h.rest, full, |b.m.oneofs|, b.m.fields);
      if r.Taken? {
        var added := r.value[|b.m.fields|..];
        assert r.value == b.m.fields + added;
        FieldTysAppend(b.m.fields, added);
        ReferringAllKeeps(ledger, added);
      }
    }
  }

  lemma {:induction false} MembersExtend(scalars: set<string>, proto3: bool, ts: seq<Token>, scope: string, oneof: nat,
                                         fields: seq<FieldD>)
    ensures var r := ParseMembers(scalars, proto3, ts, scope, oneof, fields); r.Taken? ==> fields <= r.value
    decreases |ts|
  {
    if ts != [] && ts[0].text == ";" {
      MembersExtend(scalars, proto3, ts[1..], scope, oneof, fields);
    }
    var f := ParseField(scalars, proto3, ts, scope, Some(oneof));
    if f.Taken? { MembersExtend(scalars, proto3, f.rest, scope, oneof, fields + [f.value.0]); }
  }

  lemma MapAccounts(scalars: set<string>, ts: seq<Token>, b: Body, full: string, ledger: Ledger, before: set<Ty>)
    requires Sound(b) && Accounts(ledger, before, b.m)
    ensures var r := ParseMap(scalars, ts, b, full, ledger);
      r.Parsed? ==> Accounts(r.ledger, before, r.value.m)
  {
    var h := ParseMapHead(scalars, ts);
    if h.Taken? {
      var entry := MapEntry(scalars, h.value.key, h.value.value, h.value.name, full);
      var field := MapField(h.value.name, h.value.number, full);
      FieldTysAppend(b.m.fields, [field]);
      OneFieldTy(field);
      MessagesTysAppend(b.m.nested, entry);
      EntryTys(scalars, h.value.key, h.value.value, h.value.name, full);
      ReferringKeeps(Declaring(ledger, Qualify(full, entry.name), IsMessage), entry.fields[1].ty);
    }
  }

  lemma EntryTys(scalars: set<string>, key: string, value: string, name: string, scope: string)
    ensures var entry := MapEntry(scalars, key, value, name, scope);
      MessageTys(entry) == if entry.fields[1].ty.Pending? then {entry.fields[1].ty} else {}
  {
    var entry := MapEntry(scalars, key, value, name, scope);
    assert entry.fields == [entry.fields[0]] + [entry.fields[1]];
    FieldTysAppend([entry.fields[0]], [entry.fields[1]]);
    OneFieldTy(entry.fields[0]);
    OneFieldTy(entry.fields[1]);
  }

  lemma PlainAccounts(scalars: set<string>, proto3: bool, ts: seq<Token>, b: Body, full: string, ledger: Ledger,
                      before: set<Ty>)
    requires Sound(b) && Accounts(ledger, before, b.m)
    ensures var r := ParsePlain(scalars, proto3, ts, b, full, ledger);
      r.Parsed? ==> Accounts(r.ledger, before, r.value.m)
  {
    var f := ParseField(scalars, proto3, ts, full, None);
    if f.Taken? {
      FieldTysAppend(b.m.fields, [f.value.0]);
      OneFieldTy(f.value.0);
      ReferringKeeps(ledger, f.value.0.ty);
    }
  }

  lemma {:induction false} DeclsAccount(scalars: set<string>, ts: seq<Token>, file: FileD, ledger: Ledger)
    requires Complete(file, ledger)
    ensures var r := ParseDecls(scalars, ts, file, ledger); r.Parsed? ==> Complete(r.value, r.ledger)
    decreases |ts|
  {
    if ts != [] {
      MessageAccounts(scalars, file.proto3, ts, file.package, ledger);
      var m := ParseMessage(scalars, file.proto3, ts, file.package, ledger);
      if m.Parsed? { MessagesTysAppend(file.messages, m.value); }
      var r := ParseDecl(scalars, ts, file, ledger);
      if r.Parsed? {
        assert Complete(r.value, r.ledger);
        DeclsAccount(scalars, r.rest, r.value, r.ledger);
      }
    }
  }

  /** Whatever the tokens, the ledger at the end of a parse lists exactly the
      references that the descriptor holds, however deep. */
  lemma ParsedComplete(scalars: set<string>, ts: seq<Token>)
    ensures var r := ParseFile(scalars, ts); r.Parsed? ==> Complete(r.value, r.ledger)
  {
    DeclsAccount(scalars, ts, FileD("", false, [], [], []), EMPTY_LEDGER);
  }
}
