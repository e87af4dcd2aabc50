/** The encoders without a document tree (`encodeInto`): they append literals and values to one
    buffer, and what they leave there is exactly the text of the `to_json` tree. */
module ContractEncoder {
  import opened Decimal
  import opened Json
  import opened Contract

  // ---------- a member at a time ----------

  /** The literal before a member's value. */
  lemma MemberText(before: string, key: string, value: Json, rest: Members, tail: string, prefix: string)
    requires prefix == before + "\"" + key + "\":"
    ensures MembersText(before, Member(key, value, rest), tail) == prefix + Text(value, MembersText(",", rest, tail))
  {}

  /** A string value: its quotes belong to the literals around it. */
  lemma StringMemberText(before: string, key: string, s: string, rest: Members, tail: string, prefix: string)
    requires prefix == before + "\"" + key + "\":\""
    ensures MembersText(before, Member(key, Str(s), rest), tail) == prefix + (s + ("\"" + MembersText(",", rest, tail)))
  {}

  lemma PointText(p: Point, tail: string)
    ensures Text(PointJson(p), tail) == "{\"x\":" + (p.x + (",\"y\":" + (p.y + ("}" + tail))))
  {
    var y := Member("y", Num(p.y), NoMembers);
    MemberText("{", "x", Num(p.x), y, tail, "{\"x\":");
    MemberText(",", "y", Num(p.y), NoMembers, tail, ",\"y\":");
  }

  lemma RectText(r: Rect, tail: string)
    ensures Text(RectJson(r), tail)
         == "{\"l\":" + (r.l + (",\"t\":" + (r.t + (",\"r\":" + (r.r + (",\"b\":" + (r.b + ("}" + tail))))))))
  {
    var mb := Member("b", Num(r.b), NoMembers);
    var mr := Member("r", Num(r.r), mb);
    var mt := Member("t", Num(r.t), mr);
    MemberText("{", "l", Num(r.l), mt, tail, "{\"l\":");
    MemberText(",", "t", Num(r.t), mr, tail, ",\"t\":");
    MemberText(",", "r", Num(r.r), mb, tail, ",\"r\":");
    MemberText(",", "b", Num(r.b), NoMembers, tail, ",\"b\":");
  }

  // ---------- one object ----------

  function BoolText(b: bool): string { if b then "true" else "false" }

  /** Two neighbouring literals are one. */
  lemma Merge(a: string, b: string, ab: string, tail: string)
    requires ab == a + b
    ensures a + (b + tail) == ab + tail
  {}

  /** Identifier and class, with which every object starts. */
  lemma HeadText(key: string, id: int, name: string, rest: Members, prefix: string)
    requires prefix == "{" + "\"" + key + "\":"
    ensures MembersText("{", Member(key, IntJson(id), Member("cls", Str(name), rest)), "")
         == prefix + (IntText(id) + (",\"cls\":\"" + (name + ("\"" + MembersText(",", rest, "")))))
  {
    StringMemberText(",", "cls", name, rest, "", ",\"cls\":\"");
    MemberText("{", key, IntJson(id), Member("cls", Str(name), rest), "", prefix);
  }

  /** A nested position: its braces belong to the literals around it. */
  lemma PositionText(pos: Point, rest: Members, key: string, after: string)
    requires MembersText(",", rest, "") == key + after
    ensures "\"" + MembersText(",", Member("pos", PointJson(pos), rest), "")
         == "\",\"pos\":{\"x\":" + (pos.x + (",\"y\":" + (pos.y + (("}" + key) + after))))
  {
    MemberText(",", "pos", PointJson(pos), rest, "", ",\"pos\":");
    PointText(pos, key + after);
    Join("}", key, after);
    var inside := pos.x + (",\"y\":" + (pos.y + (("}" + key) + after)));
    Merge(",\"pos\":", "{\"x\":", ",\"pos\":{\"x\":", inside);
    Merge("\"", ",\"pos\":{\"x\":", "\",\"pos\":{\"x\":", inside);
  }

  lemma EdgeText(edge: bool)
    ensures MembersText(",", Member("edge", Bool(edge), NoMembers), "") == ",\"edge\":" + (BoolText(edge) + "}")
  {
    MemberText(",", "edge", Bool(edge), NoMembers, "", ",\"edge\":");
    assert MembersText(",", NoMembers, "") == "}";
  }

  lemma TopViewObjectText(o: TopViewObject)
    ensures Plain(TopViewObjectJson(o))
         == "{\"id\":" + (IntText(o.id) + (",\"cls\":\"" + (ClassName(o.cls) + ("\",\"pos\":{\"x\":" + (o.pos.x
            + (",\"y\":" + (o.pos.y + ("},\"edge\":" + (BoolText(o.edge) + "}")))))))))
  {
    var edge := Member("edge", Bool(o.edge), NoMembers);
    var pos := Member("pos", PointJson(o.pos), edge);
    EdgeText(o.edge);
    PositionText(o.pos, edge, ",\"edge\":", BoolText(o.edge) + "}");
    assert "}" + ",\"edge\":" == "},\"edge\":";
    HeadText("id", o.id, ClassName(o.cls), pos, "{\"id\":");
  }

  lemma BlurTargetText(b: BlurTarget)
    ensures Plain(BlurTargetJson(b))
         == "{\"id\":" + (IntText(b.id) + (",\"cls\":\"" + (ClassName(b.cls) + ("\",\"box\":{\"l\":" + (b.box.l
            + (",\"t\":" + (b.box.t + (",\"r\":" + (b.box.r + (",\"b\":" + (b.box.b + "}}")))))))))))
  {
    BoxText(b.box);
    HeadText("id", b.id, ClassName(b.cls), Member("box", RectJson(b.box), NoMembers), "{\"id\":");
  }

  lemma BoxText(r: Rect)
    ensures "\"" + MembersText(",", Member("box", RectJson(r), NoMembers), "")
         == "\",\"box\":{\"l\":" + (r.l + (",\"t\":" + (r.t + (",\"r\":" + (r.r + (",\"b\":" + (r.b + "}}")))))))
  {
    MemberText(",", "box", RectJson(r), NoMembers, "", ",\"box\":");
    assert MembersText(",", NoMembers, "") == "}";
    RectText(r, "}");
    assert "}" + "}" == "}}";
    var inside := r.l + (",\"t\":" + (r.t + (",\"r\":" + (r.r + (",\"b\":" + (r.b + "}}"))))));
    Merge(",\"box\":", "{\"l\":", ",\"box\":{\"l\":", inside);
    Merge("\"", ",\"box\":{\"l\":", "\",\"box\":{\"l\":", inside);
  }

  function RiskTailText(o: RiskObject): string {
    LevelName(o.level) + ("\",\"nearest\":" + (IntText(o.nearest) + (",\"dist\":" + (o.dist + "}"))))
  }

  lemma RiskObjectTailText(o: RiskObject)
    ensures MembersText(",", RiskObjectTail(o), "") == ",\"level\":\"" + RiskTailText(o)
  {
    var dist := Member("dist", Num(o.dist), NoMembers);
    var nearest := Member("nearest", IntJson(o.nearest), dist);
    var rest := IntText(o.nearest) + (",\"dist\":" + (o.dist + "}"));
    StringMemberText(",", "level", LevelName(o.level), nearest, "", ",\"level\":\"");
    MemberText(",", "nearest", IntJson(o.nearest), dist, "", ",\"nearest\":");
    MemberText(",", "dist", Num(o.dist), NoMembers, "", ",\"dist\":");
    Merge("\"", ",\"nearest\":", "\",\"nearest\":", rest);
  }

  lemma ZoneText(zoneId: int, tail: Members, text: string)
    requires MembersText(",", tail, "") == ",\"level\":\"" + text
    ensures MembersText(",", Member("zoneId", IntJson(zoneId), tail), "")
      == ",\"zoneId\":" + (IntText(zoneId) + (",\"level\":\"" + text))
  {
    MemberText(",", "zoneId", IntJson(zoneId), tail, "", ",\"zoneId\":");
  }

  lemma ZoneAndTailText(o: RiskObject)
    ensures MembersText(",", Member("zoneId", IntJson(o.zoneId), RiskObjectTail(o)), "")
         == ",\"zoneId\":" + (IntText(o.zoneId) + (",\"level\":\"" + RiskTailText(o)))
  {
    RiskObjectTailText(o);
    ZoneText(o.zoneId, RiskObjectTail(o), RiskTailText(o));
  }

  lemma RiskObjectText(o: RiskObject)
    ensures Plain(RiskObjectJson(o))
         == "{\"gid\":" + (IntText(o.gid) + (",\"cls\":\"" + (ClassName(o.cls) + ("\",\"pos\":{\"x\":" + (o.pos.x
            + (",\"y\":"
               + (o.pos.y + ("},\"zoneId\":" + (IntText(o.zoneId) + (",\"level\":\"" + RiskTailText(o)))))))))))
  {
    ZoneAndTailText(o);
    RiskFrontText(o.gid, ClassName(o.cls), o.pos, Member("zoneId", IntJson(o.zoneId), RiskObjectTail(o)),
                  IntText(o.zoneId) + (",\"level\":\"" + RiskTailText(o)));
  }

  lemma RiskFrontText(gid: int, name: string, pos: Point, zone: Members, after: string)
    requires MembersText(",", zone, "") == ",\"zoneId\":" + after
    ensures MembersText("{", Member("gid", IntJson(gid), Member("cls", Str(name), Member("pos", PointJson(pos), zone))),
                        "")
         == "{\"gid\":" + (IntText(gid) + (",\"cls\":\"" + (name + ("\",\"pos\":{\"x\":" + (pos.x
            + (",\"y\":" + (pos.y + ("},\"zoneId\":" + after))))))))
  {
    PositionText(pos, zone, ",\"zoneId\":", after);
    assert "}" + ",\"zoneId\":" == "},\"zoneId\":";
    HeadText("gid", gid, name, Member("pos", PointJson(pos), zone), "{\"gid\":");
  }

  // ---------- appending ----------

  /** The buffer `out` still lacks `rest` of the text `goal`. */
  ghost predicate Lacks(out: string, rest: string, goal: string) { out + rest == goal }

  /** One append. */
  method Append(out: string, part: string, ghost rest: string, ghost goal: string) returns (more: string)
    requires Lacks(out, part + rest, goal)
    ensures Lacks(more, rest, goal) && more == out + part
  {
    more := out + part;
    Join(out, part, rest);
  }

  method AppendTopViewObject(out0: string, o: TopViewObject) returns (out: string)
    ensures out == out0 + Plain(TopViewObjectJson(o))
  {
    TopViewObjectText(o);
    ghost var goal := out0 + Plain(TopViewObjectJson(o));
    ghost var r5 := "}";
    ghost var r4 := BoolText(o.edge) + r5;
    ghost var r3 := o.pos.y + ("},\"edge\":" + r4);
    ghost var r2 := o.pos.x + (",\"y\":" + r3);
    ghost var r1 := ClassName(o.cls) + ("\",\"pos\":{\"x\":" + r2);
    ghost var r0 := IntText(o.id) + (",\"cls\":\"" + r1);
    out := Append(out0, "{\"id\":", r0, goal);
    out := Append(out, IntText(o.id), ",\"cls\":\"" + r1, goal);
    out := Append(out, ",\"cls\":\"", r1, goal);
    out := Append(out, ClassName(o.cls), "\",\"pos\":{\"x\":" + r2, goal);
    out := Append(out, "\",\"pos\":{\"x\":", r2, goal);
    out := Append(out, o.pos.x, ",\"y\":" + r3, goal);
    out := Append(out, ",\"y\":", r3, goal);
    out := Append(out, o.pos.y, "},\"edge\":" + r4, goal);
    out := Append(out, "},\"edge\":", r4, goal);
    out := Append(out, if o.edge then "true" else "false", r5, goal);
    out := out + "}";
  }

  method AppendBlurTarget(out0: string, b: BlurTarget) returns (out: string)
    ensures out == out0 + Plain(BlurTargetJson(b))
  {
    BlurTargetText(b);
    ghost var goal := out0 + Plain(BlurTargetJson(b));
    ghost var r5 := b.box.b + "}}";
    ghost var r4 := b.box.r + (",\"b\":" + r5);
    ghost var r3 := b.box.t + (",\"r\":" + r4);
    ghost var r2 := b.box.l + (",\"t\":" + r3);
    ghost var r1 := ClassName(b.cls) + ("\",\"box\":{\"l\":" + r2);
    ghost var r0 := IntText(b.id) + (",\"cls\":\"" + r1);
    out := Append(out0, "{\"id\":", r0, goal);
    out := Append(out, IntText(b.id), ",\"cls\":\"" + r1, goal);
    out := Append(out, ",\"cls\":\"", r1, goal);
    out := Append(out, ClassName(b.cls), "\",\"box\":{\"l\":" + r2, goal);
    out := Append(out, "\",\"box\":{\"l\":", r2, goal);
    out := Append(out, b.box.l, ",\"t\":" + r3, goal);
    out := Append(out, ",\"t\":", r3, goal);
    out := Append(out, b.box.t, ",\"r\":" + r4, goal);
    out := Append(out, ",\"r\":", r4, goal);
    out := Append(out, b.box.r, ",\"b\":" + r5, goal);
    out := Append(out, ",\"b\":", r5, goal);
    out := Append(out, b.box.b, "}}", goal);
    out := out + "}}";
  }

  method AppendRiskObject(out0: string, o: RiskObject) returns (out: string)
    ensures out == out0 + Plain(RiskObjectJson(o))
  {
    RiskObjectText(o);
    ghost var goal := out0 + Plain(RiskObjectJson(o));
    ghost var r7 := o.dist + "}";
    ghost var r6 := IntText(o.nearest) + (",\"dist\":" + r7);
    ghost var r5 := LevelName(o.level) + ("\",\"nearest\":" + r6);
    ghost var r4 := IntText(o.zoneId) + (",\"level\":\"" + r5);
    ghost var r3 := o.pos.y + ("},\"zoneId\":" + r4);
    ghost var r2 := o.pos.x + (",\"y\":" + r3);
    ghost var r1 := ClassName(o.cls) + ("\",\"pos\":{\"x\":" + r2);
    ghost var r0 := IntText(o.gid) + (",\"cls\":\"" + r1);
    out := Append(out0, "{\"gid\":", r0, goal);
    out := Append(out, IntText(o.gid), ",\"cls\":\"" + r1, goal);
    out := Append(out, ",\"cls\":\"", r1, goal);
    out := Append(out, ClassName(o.cls), "\",\"pos\":{\"x\":" + r2, goal);
    out := Append(out, "\",\"pos\":{\"x\":", r2, goal);
    out := Append(out, o.pos.x, ",\"y\":" + r3, goal);
    out := Append(out, ",\"y\":", r3, goal);
    out := Append(out, o.pos.y, "},\"zoneId\":" + r4, goal);
    out := Append(out, "},\"zoneId\":", r4, goal);
    out := Append(out, IntText(o.zoneId), ",\"level\":\"" + r5, goal);
    out := Append(out, ",\"level\":\"", r5, goal);
    out := Append(out, LevelName(o.level), "\",\"nearest\":" + r6, goal);
    out := Append(out, "\",\"nearest\":", r6, goal);
    out := Append(out, IntText(o.nearest), ",\"dist\":" + r7, goal);
    out := Append(out, ",\"dist\":", r7, goal);
    out := Append(out, o.dist, "}", goal);
    out := out + "}";
  }

  // ---------- the list ----------

  /** What the list loop has still to write: the objects from here on, then the closing text. */
  function Remaining(items: Items, first: bool, tail: string): string {
    match items
    case NoItems => "]" + tail
    case Item(head, rest) => (if first then "" else ",") + Text(head, ItemsText(",", rest, tail))
  }

  lemma ListText(items: Items, tail: string)
    ensures Text(Arr(items), tail) == "[" + Remaining(items, true, tail)
  {}

  /** One turn of the loop: a comma but for the first object, then the object. */
  lemma RemainingTurn(head: Json, rest: Items, first: bool, tail: string)
    ensures Remaining(Item(head, rest), first, tail)
         == (if first then "" else ",") + (Plain(head) + Remaining(rest, false, tail))
  {
    TextAppends(head, ItemsText(",", rest, tail));
    assert ItemsText(",", rest, tail) == Remaining(rest, false, tail);
  }

  lemma MessageText(key1: string, a: Json, key2: string, b: Json, key3: string, c: Json, key4: string, items: Items,
                    p1: string, p2: string, p3: string, list: string)
    requires p1 == "{" + "\"" + key1 + "\":" && p2 == "," + "\"" + key2 + "\":" && p3 == "," + "\"" + key3 + "\":"
    requires list == "," + "\"" + key4 + "\":" + "["
    ensures Plain(Message(key1, a, key2, b, key3, c, key4, items))
         == p1 + (Plain(a) + (p2 + (Plain(b) + (p3 + (Plain(c) + (list + Remaining(items, true, "}")))))))
  {
    var m4 := Member(key4, Arr(items), NoMembers);
    var m3 := Member(key3, c, m4);
    var m2 := Member(key2, b, m3);
    MemberText("{", key1, a, m2, "", p1);
    MemberText(",", key2, b, m3, "", p2);
    MemberText(",", key3, c, m4, "", p3);
    MemberText(",", key4, Arr(items), NoMembers, "", "," + "\"" + key4 + "\":");
    TextAppends(a, MembersText(",", m2, ""));
    TextAppends(b, MembersText(",", m3, ""));
    TextAppends(c, MembersText(",", m4, ""));
    assert MembersText(",", NoMembers, "") == "}";
    ListText(items, "}");
    Merge("," + "\"" + key4 + "\":", "[", list, Remaining(items, true, "}"));
  }

  /** The part of a message before its list. */
  method Header(p1: string, a: string, p2: string, b: string, p3: string, c: string, list: string, ghost rest: string,
                ghost goal: string)
    returns (out: string)
    requires goal == p1 + (a + (p2 + (b + (p3 + (c + (list + rest))))))
    ensures Lacks(out, rest, goal)
  {
    assert "" + goal == goal;
    out := Append("", p1, a + (p2 + (b + (p3 + (c + (list + rest))))), goal);
    out := Append(out, a, p2 + (b + (p3 + (c + (list + rest)))), goal);
    out := Append(out, p2, b + (p3 + (c + (list + rest))), goal);
    out := Append(out, b, p3 + (c + (list + rest)), goal);
    out := Append(out, p3, c + (list + rest), goal);
    out := Append(out, c, list + rest, goal);
    out := Append(out, list, rest, goal);
  }

  lemma IntPlain(n: int)
    ensures Plain(IntJson(n)) == IntText(n)
  {}

  method EncodeTopView(f: TopViewFrame) returns (out: string)
    ensures out == Plain(TopViewJson(f))
  {
    out := TopViewHeader(f);
    ghost var goal := Plain(TopViewJson(f));
    for i := 0 to |f.objects|
      invariant Lacks(out, Remaining(ItemsOf(f.objects[i..], TopViewObjectJson), i == 0, "}"), goal)
    {
      var o := f.objects[i];
      ghost var rest := Remaining(ItemsOf(f.objects[i + 1..], TopViewObjectJson), false, "}");
      assert f.objects[i..][0] == o && f.objects[i..][1..] == f.objects[i + 1..];
      RemainingTurn(TopViewObjectJson(o), ItemsOf(f.objects[i + 1..], TopViewObjectJson), i == 0, "}");
      out := Append(out, if i != 0 then "," else "", Plain(TopViewObjectJson(o)) + rest, goal);
      Join(out, Plain(TopViewObjectJson(o)), rest);
      out := AppendTopViewObject(out, o);
    }
    out := out + "]}";
  }

  lemma TopViewText(f: TopViewFrame, list: string)
    requires list == Remaining(ItemsOf(f.objects, TopViewObjectJson), true, "}")
    ensures Plain(TopViewJson(f))
         == "{\"v\":"
           + (IntText(f.v)
              + (",\"ts\":" + (IntText(f.ts) + (",\"ch\":" + (IntText(f.ch) + (",\"objects\":[" + list))))))
  {
    IntPlain(f.v);
    IntPlain(f.ts);
    IntPlain(f.ch);
    MessageText("v", IntJson(f.v), "ts", IntJson(f.ts), "ch", IntJson(f.ch), "objects",
                ItemsOf(f.objects, TopViewObjectJson),
                "{\"v\":", ",\"ts\":", ",\"ch\":", ",\"objects\":[");
  }

  method TopViewHeader(f: TopViewFrame) returns (out: string)
    ensures Lacks(out, Remaining(ItemsOf(f.objects, TopViewObjectJson), true, "}"), Plain(TopViewJson(f)))
  {
    ghost var list := Remaining(ItemsOf(f.objects, TopViewObjectJson), true, "}");
    TopViewText(f, list);
    out := Header("{\"v\":", IntText(f.v), ",\"ts\":", IntText(f.ts), ",\"ch\":", IntText(f.ch), ",\"objects\":[",
                  list, Plain(TopViewJson(f)));
  }

  method EncodeBlur(f: BlurFrame) returns (out: string)
    ensures out == Plain(BlurJson(f))
  {
    out := BlurHeader(f);
    ghost var goal := Plain(BlurJson(f));
    for i := 0 to |f.blurs|
      invariant Lacks(out, Remaining(ItemsOf(f.blurs[i..], BlurTargetJson), i == 0, "}"), goal)
    {
      var b := f.blurs[i];
      ghost var rest := Remaining(ItemsOf(f.blurs[i + 1..], BlurTargetJson), false, "}");
      assert f.blurs[i..][0] == b && f.blurs[i..][1..] == f.blurs[i + 1..];
      RemainingTurn(BlurTargetJson(b), ItemsOf(f.blurs[i + 1..], BlurTargetJson), i == 0, "}");
      out := Append(out, if i != 0 then "," else "", Plain(BlurTargetJson(b)) + rest, goal);
      Join(out, Plain(BlurTargetJson(b)), rest);
      out := AppendBlurTarget(out, b);
    }
    out := out + "]}";
  }

  lemma BlurText(f: BlurFrame, list: string)
    requires list == Remaining(ItemsOf(f.blurs, BlurTargetJson), true, "}")
    ensures Plain(BlurJson(f))
         == "{\"v\":"
           + (IntText(f.v) + (",\"ts\":" + (IntText(f.ts) + (",\"ch\":" + (IntText(f.ch) + (",\"blurs\":[" + list))))))
  {
    IntPlain(f.v);
    IntPlain(f.ts);
    IntPlain(f.ch);
    MessageText("v", IntJson(f.v), "ts", IntJson(f.ts), "ch", IntJson(f.ch), "blurs", ItemsOf(f.blurs, BlurTargetJson),
                "{\"v\":", ",\"ts\":", ",\"ch\":", ",\"blurs\":[");
  }

  method BlurHeader(f: BlurFrame) returns (out: string)
    ensures Lacks(out, Remaining(ItemsOf(f.blurs, BlurTargetJson), true, "}"), Plain(BlurJson(f)))
  {
    ghost var list := Remaining(ItemsOf(f.blurs, BlurTargetJson), true, "}");
    BlurText(f, list);
    out := Header("{\"v\":", IntText(f.v), ",\"ts\":", IntText(f.ts), ",\"ch\":", IntText(f.ch), ",\"blurs\":[",
                  list, Plain(BlurJson(f)));
  }

  method EncodeRisk(f: RiskFrame) returns (out: string)
    ensures out == Plain(RiskJson(f))
  {
    out := RiskHeader(f);
    ghost var goal := Plain(RiskJson(f));
    for i := 0 to |f.objects|
      invariant Lacks(out, Remaining(ItemsOf(f.objects[i..], RiskObjectJson), i == 0, "}"), goal)
    {
      var o := f.objects[i];
      ghost var rest := Remaining(ItemsOf(f.objects[i + 1..], RiskObjectJson), false, "}");
      assert f.objects[i..][0] == o && f.objects[i..][1..] == f.objects[i + 1..];
      RemainingTurn(RiskObjectJson(o), ItemsOf(f.objects[i + 1..], RiskObjectJson), i == 0, "}");
      out := Append(out, if i != 0 then "," else "", Plain(RiskObjectJson(o)) + rest, goal);
      Join(out, Plain(RiskObjectJson(o)), rest);
      out := AppendRiskObject(out, o);
    }
    out := out + "]}";
  }

  lemma RiskText(f: RiskFrame, list: string)
    requires list == Remaining(ItemsOf(f.objects, RiskObjectJson), true, "}")
    ensures Plain(RiskJson(f))
         == "{\"v\":"
           + (IntText(f.v)
              + (",\"ts\":" + (IntText(f.ts) + (",\"level\":\"" + (LevelName(f.level) + ("\",\"objects\":[" + list))))))
  {
    IntPlain(f.v);
    IntPlain(f.ts);
    QuotedLevel(LevelName(f.level), list);
    MessageText("v", IntJson(f.v), "ts", IntJson(f.ts), "level", Str(LevelName(f.level)), "objects",
                ItemsOf(f.objects, RiskObjectJson),
                "{\"v\":", ",\"ts\":", ",\"level\":", ",\"objects\":[");
  }

  method RiskHeader(f: RiskFrame) returns (out: string)
    ensures Lacks(out, Remaining(ItemsOf(f.objects, RiskObjectJson), true, "}"), Plain(RiskJson(f)))
  {
    ghost var list := Remaining(ItemsOf(f.objects, RiskObjectJson), true, "}");
    RiskText(f, list);
    out := Header("{\"v\":", IntText(f.v), ",\"ts\":", IntText(f.ts), ",\"level\":\"", LevelName(f.level),
                  "\",\"objects\":[",
                  list, Plain(RiskJson(f)));
  }

  lemma QuotedLevel(level: string, list: string)
    ensures ",\"level\":" + (Plain(Str(level)) + (",\"objects\":[" + list))
      == ",\"level\":\"" + (level + ("\",\"objects\":[" + list))
  {
    TextAppends(Str(level), ",\"objects\":[" + list);
    Merge("\"", ",\"objects\":[", "\",\"objects\":[", list);
    Merge(",\"level\":", "\"", ",\"level\":\"", level + ("\",\"objects\":[" + list));
  }
}
