/**
  How long a line of the activity log is in its file: the bytes its bound counts are those of the text it is written as,
  in UTF-8 (section 3 of RFC 3629), its newline included.
  */
module ActivityBytes {
  import opened Wrappers
  import opened ActivityText
  import opened ActivityLine
  import opened ActivityBounds
  import opened ActivityFitted
  import opened ActivityWriting

  // ---------- UTF-8 ----------

  function Utf8(c: nat): nat {
    if c < 0x80 then 1 else if c < 0x800 then 2 else if c < 0x1_0000 then 3 else 4
  }

  function Utf8Length(t: Text): nat {
    if t == [] then 0 else Utf8Length(t[..|t| - 1]) + Utf8(t[|t| - 1])
  }

  lemma {:induction false} Utf8OfConcat(a: Text, b: Text)
    ensures Utf8Length(a + b) == Utf8Length(a) + Utf8Length(b)
  {
    if b == [] {
      assert a + b == a;
    } else {
      Utf8OfConcat(a, b[..|b| - 1]);
      assert (a + b)[..|a + b| - 1] == a + b[..|b| - 1];
    }
  }

  lemma {:induction false} Utf8OfAscii(t: Text)
    requires forall i | 0 <= i < |t| :: t[i] < 0x80
    ensures Utf8Length(t) == |t|
  {
    if t != [] { Utf8OfAscii(t[..|t| - 1]); }
  }

  lemma EscapedBytes(c: nat)
    ensures Utf8Length(Escaped(c)) == CharBytes(c)
  {
    if |Escaped(c)| > 1 {
      Utf8OfAscii(Escaped(c));
    } else {
      assert Escaped(c)[..0] == [];
    }
  }

  lemma {:induction false} EscapedAllBytes(t: Text)
    ensures Utf8Length(EscapedAll(t)) == CharsBytes(t)
  {
    if t != [] {
      EscapedAllBytes(t[..|t| - 1]);
      Utf8OfConcat(EscapedAll(t[..|t| - 1]), Escaped(t[|t| - 1]));
      EscapedBytes(t[|t| - 1]);
      hide Escaped, CharBytes, Utf8Length;
    }
  }

  lemma Around(before: nat, t: Text, after: nat)
    requires before < 0x80 && after < 0x80
    ensures Utf8Length([before] + t + [after]) == Utf8Length(t) + 2
  {
    Utf8OfConcat([before] + t, [after]);
    Utf8OfConcat([before], t);
    Utf8OfAscii([before]);
    Utf8OfAscii([after]);
  }

  lemma QuotedBytes(t: Text)
    ensures Utf8Length(Quoted(t)) == TextBytes(t)
  {
    EscapedAllBytes(t);
    Around(34, EscapedAll(t), 34);
  }

  // ---------- what a line is written with ----------

  predicate PlainName(name: string) {
    forall i | 0 <= i < |name| :: (name[i] as int) < 0x80
  }

  // Every number in it is whole already, and every key plain.
  predicate Ours(j: Json) {
    match j
    case JNum(n) => n.Is?
    case JArr(items) => forall i | 0 <= i < |items| :: Ours(items[i])
    case JObj(fields) => OursAll(fields)
    case _ => true
  }

  predicate OursAll(fields: seq<Field>) {
    forall i | 0 <= i < |fields| :: OursField(fields[i])
  }

  predicate OursField(f: Field) {
    PlainName(NameOf(f.key)) && Ours(f.value)
  }

  // A whole number is written in as many characters as it has digits.
  ghost predicate WritesDigits(number: Number -> Text) {
    forall w: Whole :: Utf8Length(number(Is(w))) == w.digits
  }

  lemma {:induction false} WrittenBytes(j: Json, number: Number -> Text)
    requires Ours(j) && WritesDigits(number)
    ensures Utf8Length(Written(j, number)) == Bytes(j)
    decreases j
  {
    match j {
      case JNull => Utf8OfAscii(Ascii("null"));
      case JBool(b) => Utf8OfAscii(if b then Ascii("true") else Ascii("false"));
      case JNum(n) =>
      case JStr(t) => QuotedBytes(t);
      case JArr(items) =>
        ItemsBytesAre(items, number);
        Around(91, ItemsText(items, number), 93);
      case JObj(fields) =>
        FieldsBytesAre(fields, number);
        Around(123, FieldsText(fields, number), 125);
    }
  }

  // Each with the comma after it, but for the last.
  lemma {:induction false} ItemsBytesAre(items: seq<Json>, number: Number -> Text)
    requires (forall i | 0 <= i < |items| :: Ours(items[i])) && WritesDigits(number)
    ensures Utf8Length(ItemsText(items, number)) == ItemsBytes(items) - if items == [] then 0 else 1
    decreases items
  {
    hide Utf8Length, Ours, WritesDigits;
    if items == [] {
      NothingIsNothing();
    } else {
      var front := items[..|items| - 1];
      var last := items[|items| - 1];
      ItemsBytesAre(front, number);
      WrittenBytes(last, number);
      Joined(ItemsText(front, number), |items| > 1, Written(last, number));
      hide Written, Bytes;
    }
  }

  lemma NothingIsNothing()
    ensures Utf8Length([]) == 0
  {
  }

  lemma Joined(front: Text, comma: bool, last: Text)
    ensures Utf8Length(front + (if comma then [44] else []) + last) == Utf8Length(front) + Utf8Length(last) + if comma then 1 else 0
  {
    var between: Text := if comma then [44] else [];
    Utf8OfAscii(between);
    hide Utf8Length;
    Utf8OfConcat(front + between, last);
    Utf8OfConcat(front, between);
  }

  lemma {:induction false} FieldsBytesAre(fields: seq<Field>, number: Number -> Text)
    requires OursAll(fields) && WritesDigits(number)
    ensures Utf8Length(FieldsText(fields, number)) == FieldsBytes(fields) - if fields == [] then 0 else 1
    decreases fields
  {
    hide Utf8Length, OursField, WritesDigits;
    if fields == [] {
      NothingIsNothing();
    } else {
      var front := fields[..|fields| - 1];
      var last := fields[|fields| - 1];
      FieldsBytesAre(front, number);
      FieldBytesAre(last, number);
      Joined(FieldsText(front, number), |fields| > 1, FieldText(last, number));
      hide FieldText, FieldBytes;
    }
  }

  lemma FieldBytesAre(f: Field, number: Number -> Text)
    requires OursField(f) && WritesDigits(number)
    ensures Utf8Length(FieldText(f, number)) == FieldBytes(f) - 1
    decreases f
  {
    WrittenBytes(f.value, number);
    hide Utf8Length, Ours, Written, Bytes, WritesDigits;
    NameBytes(f.key);
    Utf8OfConcat([34] + Ascii(NameOf(f.key)) + [34, 58], Written(f.value, number));
  }

  lemma NameBytes(key: Key)
    requires PlainName(NameOf(key))
    ensures Utf8Length([34] + Ascii(NameOf(key)) + [34, 58]) == |NameOf(key)| + 3
  {
    Utf8OfAscii([34] + Ascii(NameOf(key)) + [34, 58]);
  }

  // ---------- a line is ----------

  // The keys a line is written with, each plain.
  lemma KnownNamesArePlain(key: Key)
    requires !key.Named?
    ensures PlainName(NameOf(key))
  {
    if key.AtKey? || key.ChannelKey? || key.AccountKey? || key.IdKey? || key.AliasKey? || key.OperationKey? || key.KindKey?
       || key.OutcomeKey? || key.ReasonKey? || key.SessionKey? || key.KeyKey? || key.ProcessKey? || key.PidKey? || key.ClientKey?
       || key.NameKey? {
      FirstNamesArePlain(key);
    } else if key.VersionKey? || key.FolderKey? || key.ParentKey? || key.StartedAtKey? || key.AncestorsKey? || key.GroupedKey?
              || key.SurfaceKey? || key.ConnectionKey? || key.MsKey? || key.ItemsKey? || key.SubjectKey? || key.FromKey?
              || key.AddressKey? || key.SizeKey? || key.ConversationKey? {
      NextNamesArePlain(key);
    } else if key.CountKey? || key.CountsKey? || key.QueryKey? || key.RecipientsKey? || key.ApprovalIdKey? || key.ToldKey?
              || key.RuleKey? || key.TargetKey? {
      MoreNamesArePlain(key);
    } else {
      LastNamesArePlain(key);
    }
    hide NameOf, PlainName;
  }

  lemma FirstNamesArePlain(key: Key)
    requires key.AtKey? || key.ChannelKey? || key.AccountKey? || key.IdKey? || key.AliasKey? || key.OperationKey? || key.KindKey?
             || key.OutcomeKey? || key.ReasonKey? || key.SessionKey? || key.KeyKey? || key.ProcessKey? || key.PidKey?
             || key.ClientKey? || key.NameKey?
    ensures PlainName(NameOf(key))
  {
  }

  lemma NextNamesArePlain(key: Key)
    requires key.VersionKey? || key.FolderKey? || key.ParentKey? || key.StartedAtKey? || key.AncestorsKey? || key.GroupedKey?
             || key.SurfaceKey? || key.ConnectionKey? || key.MsKey? || key.ItemsKey? || key.SubjectKey? || key.FromKey?
             || key.AddressKey? || key.SizeKey? || key.ConversationKey?
    ensures PlainName(NameOf(key))
  {
  }

  lemma MoreNamesArePlain(key: Key)
    requires key.CountKey? || key.CountsKey? || key.QueryKey? || key.RecipientsKey? || key.ApprovalIdKey? || key.ToldKey?
             || key.RuleKey? || key.TargetKey?
    ensures PlainName(NameOf(key))
  {
  }

  lemma LastNamesArePlain(key: Key)
    requires key.ReplyToKey? || key.MessageIdKey? || key.ThreadIdKey? || key.DraftIdKey?
             || key.ChannelIdKey? || key.ThreadKey? || key.ActKey? || key.TruncatedKey?
    ensures PlainName(NameOf(key))
  {
  }

  lemma NothingIsOurs()
    ensures OursAll([])
  {
  }

  // A field more, of each form a line has.
  lemma AddedIsOurs(fields: seq<Field>, f: Option<Field>)
    requires OursAll(fields) && (f.Some? ==> !f.value.key.Named? && Ours(f.value.value))
    ensures OursAll(Add(fields, f))
  {
    if f.Some? { KnownNamesArePlain(f.value.key); }
    hide PlainName, NameOf, Ours, Get, FieldsBytes, OptionalBytes;
  }

  lemma WithText(fields: seq<Field>, key: Key, t: Option<Text>)
    requires OursAll(fields) && !key.Named?
    ensures OursAll(Add(fields, StrIf(key, t)))
    ensures t.Some? ==> OursAll(Add(fields, Str(key, t.value)))
  {
    AddedIsOurs(fields, StrIf(key, t));
    hide OursAll, Add;
  }

  lemma WithNumber(fields: seq<Field>, key: Key, w: Option<Whole>)
    requires OursAll(fields) && !key.Named?
    ensures OursAll(Add(fields, NumIf(key, w)))
    ensures w.Some? ==> OursAll(Add(fields, Num(key, w.value)))
  {
    AddedIsOurs(fields, NumIf(key, w));
    hide OursAll, Add;
  }

  lemma WithObject(fields: seq<Field>, key: Key, within: Option<seq<Field>>)
    requires OursAll(fields) && !key.Named? && (within.Some? ==> OursAll(within.value))
    ensures OursAll(Add(fields, if within.Some? then Obj(key, within.value) else None))
  {
    var f := if within.Some? then Obj(key, within.value) else None;
    if within.Some? { assert Ours(JObj(within.value)); }
    AddedIsOurs(fields, f);
    hide OursAll, Add;
  }

  lemma WithList(fields: seq<Field>, key: Key, items: Option<seq<Json>>)
    requires OursAll(fields) && !key.Named? && (items.Some? ==> forall j | j in items.value :: Ours(j))
    ensures OursAll(Add(fields, if items.Some? then Some(Field(key, JArr(items.value))) else None))
  {
    var f := if items.Some? then Some(Field(key, JArr(items.value))) else None;
    if items.Some? { assert Ours(JArr(items.value)); }
    AddedIsOurs(fields, f);
    hide OursAll, Add;
  }

  lemma WithFlag(fields: seq<Field>, key: Key, j: Json)
    requires OursAll(fields) && !key.Named? && (j.JBool? || j.JNull? || j.JStr?)
    ensures OursAll(Add(fields, Some(Field(key, j))))
  {
    AddedIsOurs(fields, Some(Field(key, j)));
    hide OursAll, Add;
  }

  // ---------- its parts ----------

  lemma SenderIsOurs(s: Sender)
    ensures OursAll(SenderFields(s))
  {
    hide OursAll, Add, StrIf;
    NothingIsOurs();
    WithText([], NameKey, s.name);
    WithText(Add([], StrIf(NameKey, s.name)), AddressKey, s.address);
  }

  lemma ItemHeadIsOurs(i: Item)
    ensures OursAll(ItemHeadFields(i))
  {
    hide OursAll, Add, Str, StrIf, SenderFields;
    NothingIsOurs();
    WithText([], IdKey, Some(i.id));
    var id := Add([], Str(IdKey, i.id));
    WithText(id, SubjectKey, i.subject);
    if i.from.Some? { SenderIsOurs(i.from.value); }
    WithObject(Add(id, StrIf(SubjectKey, i.subject)), FromKey, if i.from.Some? then Some(SenderFields(i.from.value)) else None);
  }

  lemma ItemIsOurs(i: Item)
    ensures Ours(JObj(ItemFields(i)))
  {
    hide OursAll, Add, StrIf, NumIf, ItemHeadFields;
    ItemHeadIsOurs(i);
    var head := ItemHeadFields(i);
    WithText(head, NameKey, i.name);
    WithNumber(Add(head, StrIf(NameKey, i.name)), SizeKey, i.size);
    WithText(Add(Add(head, StrIf(NameKey, i.name)), NumIf(SizeKey, i.size)), ConversationKey, i.conversation);
  }

  lemma {:induction false} ItemsAreOurs(items: seq<Item>)
    ensures forall j | j in ItemsJson(items) :: Ours(j)
  {
    if items != [] {
      ItemsAreOurs(items[..|items| - 1]);
      ItemIsOurs(items[|items| - 1]);
      hide Ours, ItemFields;
    }
  }

  lemma {:induction false} TextsAreOurs(texts: seq<Text>)
    ensures forall j | j in TextsJson(texts) :: Ours(j)
  {
    if texts != [] { TextsAreOurs(texts[..|texts| - 1]); }
  }

  lemma {:induction false} CountsAreOurs(counts: seq<Named>)
    requires CountsBounded(counts)
    ensures OursAll(CountFields(counts))
  {
    if counts != [] {
      var last := counts[|counts| - 1];
      CountsAreOurs(counts[..|counts| - 1]);
      CountNameIsPlain(NameOf(last.name));
      assert OursField(Field(last.name, JNum(Is(last.count))));
      hide OursField, IsCountName;
    }
  }

  lemma CountNameIsPlain(name: string)
    requires IsCountName(name)
    ensures PlainName(name)
  {
  }

  lemma KeyIsOurs(s: Session)
    ensures OursAll(KeyFields(s))
  {
    hide OursAll, Add, Str, Num;
    NothingIsOurs();
    WithText([], KeyKey, Some(s.key));
    WithText(Add([], Str(KeyKey, s.key)), ProcessKey, Some(s.process));
    WithNumber(Add(Add([], Str(KeyKey, s.key)), Str(ProcessKey, s.process)), PidKey, Some(s.pid));
  }

  lemma ClientIsOurs(c: Client)
    ensures OursAll(ClientFields(c))
  {
    hide OursAll, Add, Str, StrIf;
    NothingIsOurs();
    WithText([], NameKey, Some(c.name));
    WithText(Add([], Str(NameKey, c.name)), VersionKey, c.version);
  }

  lemma ProcessIsOurs(s: Session)
    ensures OursAll(ProcessFields(s))
  {
    hide OursAll, Add, ClientFields, KeyFields;
    KeyIsOurs(s);
    if s.client.Some? { ClientIsOurs(s.client.value); }
    WithObject(KeyFields(s), ClientKey, if s.client.Some? then Some(ClientFields(s.client.value)) else None);
    var g := Add(KeyFields(s), if s.client.None? then None else Obj(ClientKey, ClientFields(s.client.value)));
    WithFlag(g, FolderKey, if s.folder.None? then JNull else JStr(s.folder.value));
  }

  lemma ParentIsOurs(p: Parent)
    ensures OursAll(ParentFields(p))
  {
    hide OursAll, Add, Str, Num;
    NothingIsOurs();
    WithNumber([], PidKey, Some(p.pid));
    WithText(Add([], Num(PidKey, p.pid)), StartedAtKey, Some(p.startedAt));
    WithText(Add(Add([], Num(PidKey, p.pid)), Str(StartedAtKey, p.startedAt)), NameKey, Some(p.name));
  }

  lemma AncestryIsOurs(f: seq<Field>, s: Session)
    requires OursAll(f)
    ensures OursAll(AncestryFields(f, s))
  {
    hide OursAll, Add, ParentFields, TextsJson, Ours;
    if s.parent.Some? { ParentIsOurs(s.parent.value); }
    if s.ancestors.Some? { TextsAreOurs(s.ancestors.value); }
    WithObject(f, ParentKey, if s.parent.Some? then Some(ParentFields(s.parent.value)) else None);
    WithList(Add(f, if s.parent.None? then None else Obj(ParentKey, ParentFields(s.parent.value))), AncestorsKey,
             if s.ancestors.Some? then Some(TextsJson(s.ancestors.value)) else None);
  }

  lemma ConnectionIsOurs(c: Connection)
    ensures OursAll(ConnectionFields(c))
  {
    hide OursAll, Add, Str;
    NothingIsOurs();
    WithText([], IdKey, Some(c.id));
    WithText(Add([], Str(IdKey, c.id)), NameKey, Some(c.name));
  }

  lemma WindowIsOurs(f: seq<Field>, s: Session)
    requires OursAll(f)
    ensures OursAll(WindowFields(f, s))
  {
    hide OursAll, Add, AncestryFields, SurfaceText, Str, ConnectionFields, Ours;
    AncestryIsOurs(f, s);
    WithFlag(AncestryFields(f, s), GroupedKey, JBool(s.grouped));
    var grouped := Add(AncestryFields(f, s), Some(Field(GroupedKey, JBool(s.grouped))));
    WithText(grouped, SurfaceKey, Some(SurfaceText(s.surface)));
    if s.connection.Some? { ConnectionIsOurs(s.connection.value); }
    WithObject(Add(grouped, Str(SurfaceKey, SurfaceText(s.surface))), ConnectionKey,
               if s.connection.Some? then Some(ConnectionFields(s.connection.value)) else None);
  }

  lemma AccountIsOurs(id: Text, alias: Text)
    ensures OursAll(AccountFields(id, alias))
  {
    hide OursAll, Add, Str;
    NothingIsOurs();
    WithText([], IdKey, Some(id));
    WithText(Add([], Str(IdKey, id)), AliasKey, Some(alias));
  }

  lemma WhoIsOurs(l: Line)
    ensures OursAll(WhoFields(l))
  {
    hide OursAll, Add, Str, AccountFields;
    NothingIsOurs();
    WithText([], AtKey, Some(l.at));
    WithText(Add([], Str(AtKey, l.at)), ChannelKey, Some(l.channel));
    AccountIsOurs(l.accountId, l.accountAlias);
    WithObject(Add(Add([], Str(AtKey, l.at)), Str(ChannelKey, l.channel)), AccountKey,
               Some(AccountFields(l.accountId, l.accountAlias)));
  }

  lemma WhatIsOurs(f: seq<Field>, l: Line)
    requires OursAll(f)
    ensures OursAll(WhatFields(f, l))
  {
    hide OursAll, Add, Str, KindText, OutcomeText;
    WithText(f, OperationKey, Some(l.operation));
    WithText(Add(f, Str(OperationKey, l.operation)), KindKey, Some(KindText(l.kind)));
    WithText(Add(Add(f, Str(OperationKey, l.operation)), Str(KindKey, KindText(l.kind))), OutcomeKey, Some(OutcomeText(l.outcome)));
  }

  lemma HeadIsOurs(l: Line)
    ensures OursAll(HeadFields(l))
  {
    hide OursAll, Add, ProcessFields, WindowFields, WhoFields, WhatFields, StrIf, Num;
    ProcessIsOurs(l.session);
    WindowIsOurs(ProcessFields(l.session), l.session);
    WhoIsOurs(l);
    WhatIsOurs(WhoFields(l), l);
    var what := WhatFields(WhoFields(l), l);
    WithText(what, ReasonKey, l.reason);
    WithObject(Add(what, StrIf(ReasonKey, l.reason)), SessionKey, Some(SessionFields(l.session)));
    WithNumber(Add(Add(what, StrIf(ReasonKey, l.reason)), Obj(SessionKey, SessionFields(l.session))), MsKey, Some(l.ms));
  }

  lemma ItemsFieldsAreOurs(f: seq<Field>, l: Line)
    requires OursAll(f)
    ensures OursAll(ItemsFields(f, l))
  {
    hide OursAll, Add, ItemsJson, NumIf, Ours;
    if l.items.Some? { ItemsAreOurs(l.items.value); }
    WithList(f, ItemsKey, if l.items.Some? then Some(ItemsJson(l.items.value)) else None);
    WithNumber(Add(f, if l.items.None? then None else Some(Field(ItemsKey, JArr(ItemsJson(l.items.value))))), CountKey, l.count);
  }

  lemma TouchedIsOurs(f: seq<Field>, l: Line)
    requires OursAll(f) && (l.counts.Some? ==> CountsBounded(l.counts.value))
    ensures OursAll(TouchedFields(f, l))
  {
    hide OursAll, Add, TextsJson, ItemsFields, CountFields, CountsBounded, StrIf, Ours;
    ItemsFieldsAreOurs(f, l);
    if l.counts.Some? { CountsAreOurs(l.counts.value); }
    WithObject(ItemsFields(f, l), CountsKey, if l.counts.Some? then Some(CountFields(l.counts.value)) else None);
    var g := Add(ItemsFields(f, l), if l.counts.None? then None else Obj(CountsKey, CountFields(l.counts.value)));
    WithText(g, QueryKey, l.query);
    if l.recipients.Some? { TextsAreOurs(l.recipients.value); }
    WithList(Add(g, StrIf(QueryKey, l.query)), RecipientsKey,
             if l.recipients.Some? then Some(TextsJson(l.recipients.value)) else None);
  }

  lemma ToldIsOurs(t: Told)
    ensures OursAll(ToldFields(t))
  {
    hide OursAll, Add, Str;
    NothingIsOurs();
    WithText([], RuleKey, Some(t.rule));
    WithText(Add([], Str(RuleKey, t.rule)), TargetKey, Some(t.target));
  }

  lemma ReplyToIsOurs(r: ReplyTo)
    ensures OursAll(ReplyToFields(r))
  {
    hide OursAll, Add, Str, StrIf;
    NothingIsOurs();
    WithText([], MessageIdKey, Some(r.messageId));
    WithText(Add([], Str(MessageIdKey, r.messageId)), ThreadIdKey, r.threadId);
  }

  lemma ApprovalIsOurs(f: seq<Field>, l: Line)
    requires OursAll(f)
    ensures OursAll(ApprovalFields(f, l))
  {
    hide OursAll, Add, StrIf, ToldFields;
    WithText(f, ApprovalIdKey, l.approvalId);
    if l.told.Some? { ToldIsOurs(l.told.value); }
    WithObject(Add(f, StrIf(ApprovalIdKey, l.approvalId)), ToldKey, if l.told.Some? then Some(ToldFields(l.told.value)) else None);
  }

  lemma ReplyIsOurs(f: seq<Field>, l: Line)
    requires OursAll(f)
    ensures OursAll(ReplyFields(f, l))
  {
    hide OursAll, Add, StrIf, ApprovalFields, ReplyToFields;
    ApprovalIsOurs(f, l);
    if l.replyTo.Some? { ReplyToIsOurs(l.replyTo.value); }
    var g := ApprovalFields(f, l);
    WithObject(g, ReplyToKey, if l.replyTo.Some? then Some(ReplyToFields(l.replyTo.value)) else None);
    WithText(Add(g, if l.replyTo.None? then None else Obj(ReplyToKey, ReplyToFields(l.replyTo.value))), DraftIdKey, l.draftId);
  }

  lemma WithJson(fields: seq<Field>, key: Key, j: Option<Json>)
    requires OursAll(fields) && !key.Named? && (j.Some? ==> j.value.JBool? || j.value.JNull? || j.value.JStr?)
    ensures OursAll(Add(fields, JsonIf(key, j)))
  {
    AddedIsOurs(fields, JsonIf(key, j));
    hide OursAll, Add;
  }

  lemma PlaceIsOurs(f: seq<Field>, l: Line)
    requires OursAll(f)
    ensures OursAll(PlaceFields(f, l))
  {
    hide OursAll, Add, StrIf, JsonIf;
    WithText(f, ThreadIdKey, l.threadId);
    WithText(Add(f, StrIf(ThreadIdKey, l.threadId)), ChannelIdKey, l.channelId);
    WithJson(Add(Add(f, StrIf(ThreadIdKey, l.threadId)), StrIf(ChannelIdKey, l.channelId)), ThreadKey, ThreadJson(l.thread));
  }

  lemma LastIsOurs(f: seq<Field>, l: Line)
    requires OursAll(f)
    ensures OursAll(LastFields(f, l))
  {
    hide OursAll, Add, JsonIf;
    WithJson(f, ActKey, ActJson(l.act));
    WithJson(Add(f, JsonIf(ActKey, ActJson(l.act))), TruncatedKey, TruncatedJson(l.truncated));
  }

  lemma LinksAreOurs(f: seq<Field>, l: Line)
    requires OursAll(f)
    ensures OursAll(LinkFields(f, l))
  {
    hide OursAll, ReplyFields, PlaceFields, LastFields;
    ReplyIsOurs(f, l);
    PlaceIsOurs(ReplyFields(f, l), l);
    LastIsOurs(PlaceFields(ReplyFields(f, l), l), l);
  }

  lemma FieldsAreOurs(l: Line)
    requires l.counts.Some? ==> CountsBounded(l.counts.value)
    ensures OursAll(LineFields(l))
  {
    hide OursAll, HeadFields, TouchedFields, LinkFields, CountsBounded;
    HeadIsOurs(l);
    TouchedIsOurs(HeadFields(l), l);
    LinksAreOurs(TouchedFields(HeadFields(l), l), l);
  }

  lemma LineIsOurs(l: Line)
    requires Bounded(l)
    ensures Ours(ToJson(l))
  {
    hide OursAll, LineFields, WordsBounded, LinksBounded, CountsBounded;
    FieldsAreOurs(l);
  }

  lemma NewlineBytes(t: Text)
    ensures Utf8Length(t + [10]) == Utf8Length(t) + 1
  {
    Utf8OfAscii([10]);
    Utf8OfConcat(t, [10]);
    hide Utf8Length;
  }

  // Whatever it is given, what is written, and a newline after it, is at most sixteen kibibytes.
  lemma EveryLineIsWrittenInItsBound(raw: seq<Field>, here: Here, number: Number -> Text)
    requires HereOk(here) && WritesDigits(number)
    ensures var l := ActivityLineOf(raw, here);
            && Utf8Length(Written(ToJson(l), number)) + 1 == LineBytes(l)
            && Utf8Length(Written(ToJson(l), number) + [10]) <= 16 * 1024
  {
    hide ActivityLineOf, Bounded, Ours, Written, Bytes, ToJson, HereOk, WritesDigits;
    var l := ActivityLineOf(raw, here);
    EveryLineFits(raw, here);
    LineIsOurs(l);
    WrittenBytes(ToJson(l), number);
    NewlineBytes(Written(ToJson(l), number));
    hide Utf8Length;
  }
}
