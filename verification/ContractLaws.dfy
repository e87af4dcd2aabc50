/** Decoding what was encoded gives the same message, exactly when the receiver's limit on the
    number of objects is kept; the payload limit is never reached. */
module ContractLaws {
  import opened Domain
  import opened Decimal
  import opened Json
  import opened Contract

  // ---------- what can be sent ----------

  predicate Short(t: Token) { |t| <= MAX_DOUBLE_LENGTH }

  predicate PointOk(p: Point) { Short(p.x) && Short(p.y) }

  predicate RectOk(r: Rect) { Short(r.l) && Short(r.t) && Short(r.r) && Short(r.b) }

  predicate TopViewObjectOk(o: TopViewObject) { IsInt64(o.id) && PointOk(o.pos) }

  predicate BlurTargetOk(b: BlurTarget) { IsInt64(b.id) && RectOk(b.box) }

  predicate RiskObjectOk(o: RiskObject) {
    IsInt64(o.gid) && PointOk(o.pos) && IsInt64(o.zoneId) && IsInt64(o.nearest) && Short(o.dist)
  }

  predicate TopViewOk(f: TopViewFrame) {
    IsInt64(f.v) && IsInt64(f.ts) && IsInt64(f.ch) && forall i :: 0 <= i < |f.objects| ==> TopViewObjectOk(f.objects[i])
  }

  predicate BlurOk(f: BlurFrame) {
    IsInt64(f.v) && IsInt64(f.ts) && IsInt64(f.ch) && forall i :: 0 <= i < |f.blurs| ==> BlurTargetOk(f.blurs[i])
  }

  predicate RiskOk(f: RiskFrame) {
    IsInt64(f.v) && IsInt64(f.ts) && forall i :: 0 <= i < |f.objects| ==> RiskObjectOk(f.objects[i])
  }

  // ---------- trees of members ----------

  predicate MembersSound(m: Members, size: nat, depth: nat) {
    MembersWellFormed(m) && MembersSize(m) <= size && MembersDepth(m) <= depth
  }

  lemma MemberSound(key: string, value: Json, rest: Members, valueSize: nat, restSize: nat, depth: nat)
    requires IsPlain(key) && Sound(value, valueSize, depth) && MembersSound(rest, restSize, depth)
    ensures MembersSound(Member(key, value, rest), 4 + |key| + valueSize + restSize, depth)
  {}

  lemma ObjectSound(m: Members, size: nat, depth: nat)
    requires m.Member? && MembersSound(m, size, depth)
    ensures Sound(Obj(m), size, depth + 1)
  {
    ObjectSize(m);
  }

  lemma StringSound(s: string, size: nat)
    requires IsPlain(s) && |s| <= size
    ensures Sound(Str(s), size + 2, 0)
  {}

  lemma PointSound(p: Point)
    requires PointOk(p)
    ensures Sound(PointJson(p), 59, 1)
  {
    TokenSound(p.x);
    TokenSound(p.y);
    var y := Member("y", Num(p.y), NoMembers);
    MemberSound("y", Num(p.y), NoMembers, 24, 1, 0);
    MemberSound("x", Num(p.x), y, 24, 30, 0);
    ObjectSound(Member("x", Num(p.x), y), 59, 0);
  }

  lemma RectSound(r: Rect)
    requires RectOk(r)
    ensures Sound(RectJson(r), 117, 1)
  {
    TokenSound(r.l);
    TokenSound(r.t);
    TokenSound(r.r);
    TokenSound(r.b);
    var mb := Member("b", Num(r.b), NoMembers);
    var mr := Member("r", Num(r.r), mb);
    var mt := Member("t", Num(r.t), mr);
    MemberSound("b", Num(r.b), NoMembers, 24, 1, 0);
    MemberSound("r", Num(r.r), mb, 24, 30, 0);
    MemberSound("t", Num(r.t), mr, 24, 59, 0);
    MemberSound("l", Num(r.l), mt, 24, 88, 0);
    ObjectSound(Member("l", Num(r.l), mt), 117, 0);
  }

  lemma TopViewObjectBodySound(id: Json, cls: Json, pos: Json, edge: Json)
    requires Sound(id, 20, 0) && Sound(cls, 14, 0) && Sound(pos, 59, 1) && Sound(edge, 5, 0)
    ensures Sound(Obj(Member("id", id, Member("cls", cls, Member("pos", pos, Member("edge", edge, NoMembers))))), 127,
                  2)
  {
    var m3 := Member("edge", edge, NoMembers);
    var m2 := Member("pos", pos, m3);
    var m1 := Member("cls", cls, m2);
    MemberSound("edge", edge, NoMembers, 5, 1, 1);
    MemberSound("pos", pos, m3, 59, 14, 1);
    MemberSound("cls", cls, m2, 14, 80, 1);
    MemberSound("id", id, m1, 20, 101, 1);
    ObjectSound(Member("id", id, m1), 127, 1);
  }

  lemma TopViewObjectSound(o: TopViewObject)
    requires TopViewObjectOk(o)
    ensures Sound(TopViewObjectJson(o), 127, 2)
  {
    IntSound(o.id);
    StringSound(ClassName(o.cls), 12);
    PointSound(o.pos);
    assert Sound(Bool(o.edge), 5, 0);
    TopViewObjectBodySound(IntJson(o.id), Str(ClassName(o.cls)), PointJson(o.pos), Bool(o.edge));
  }

  lemma BlurTargetSound(b: BlurTarget)
    requires BlurTargetOk(b)
    ensures Sound(BlurTargetJson(b), 172, 2)
  {
    IntSound(b.id);
    StringSound(ClassName(b.cls), 12);
    RectSound(b.box);
    var box := Member("box", RectJson(b.box), NoMembers);
    var cls := Member("cls", Str(ClassName(b.cls)), box);
    MemberSound("box", RectJson(b.box), NoMembers, 117, 1, 1);
    MemberSound("cls", Str(ClassName(b.cls)), box, 14, 125, 1);
    MemberSound("id", IntJson(b.id), cls, 20, 146, 1);
    ObjectSound(Member("id", IntJson(b.id), cls), 172, 1);
  }

  lemma RiskObjectTailSound(o: RiskObject)
    requires RiskObjectOk(o)
    ensures MembersSound(RiskObjectTail(o), 82, 1)
  {
    StringSound(LevelName(o.level), 7);
    IntSound(o.nearest);
    TokenSound(o.dist);
    var dist := Member("dist", Num(o.dist), NoMembers);
    var nearest := Member("nearest", IntJson(o.nearest), dist);
    MemberSound("dist", Num(o.dist), NoMembers, 24, 1, 1);
    MemberSound("nearest", IntJson(o.nearest), dist, 20, 33, 1);
    MemberSound("level", Str(LevelName(o.level)), nearest, 9, 64, 1);
  }

  lemma RiskObjectBodySound(gid: Json, cls: Json, pos: Json, zone: Json, tail: Members)
    requires Sound(gid, 20, 0) && Sound(cls, 14, 0) && Sound(pos, 59, 1) && Sound(zone, 20, 0)
    requires MembersSound(tail, 82, 1)
    ensures Sound(Obj(Member("gid", gid, Member("cls", cls, Member("pos", pos, Member("zoneId", zone, tail))))), 226, 2)
  {
    var m4 := Member("zoneId", zone, tail);
    var m3 := Member("pos", pos, m4);
    var m2 := Member("cls", cls, m3);
    MemberSound("zoneId", zone, tail, 20, 82, 1);
    MemberSound("pos", pos, m4, 59, 112, 1);
    MemberSound("cls", cls, m3, 14, 178, 1);
    MemberSound("gid", gid, m2, 20, 199, 1);
    ObjectSound(Member("gid", gid, m2), 226, 1);
  }

  lemma RiskObjectSound(o: RiskObject)
    requires RiskObjectOk(o)
    ensures Sound(RiskObjectJson(o), 226, 2)
  {
    IntSound(o.gid);
    StringSound(ClassName(o.cls), 12);
    PointSound(o.pos);
    IntSound(o.zoneId);
    RiskObjectTailSound(o);
    RiskObjectBodySound(IntJson(o.gid), Str(ClassName(o.cls)), PointJson(o.pos), IntJson(o.zoneId), RiskObjectTail(o));
  }

  // ---------- trees read back ----------

  lemma Skip(k: string, v: Json, rest: Members, key: string)
    requires k != key
    ensures Find(Member(k, v, rest), key) == Find(rest, key)
  {}

  lemma IntBack(j: Json, key: string, n: int, fallback: int)
    requires Field(j, key) == Some(IntJson(n))
    ensures IntField(j, key, fallback) == n
  {
    IntRoundTrip(n);
  }

  lemma ClassBack(j: Json, c: ObjectClass)
    requires Field(j, "cls") == Some(Str(ClassName(c)))
    ensures ClassFromString(StringField(j, "cls")) == c
  {
    ClassNameRoundTrip(c);
  }

  lemma LevelBack(j: Json, l: Level)
    requires Field(j, "level") == Some(Str(LevelName(l)))
    ensures LevelFromString(StringField(j, "level")) == l
  {
    LevelNameRoundTrip(l);
  }

  lemma PointRoundTrip(p: Point)
    ensures PointFrom(PointJson(p)) == p
  {
    Skip("x", Num(p.x), Member("y", Num(p.y), NoMembers), "y");
  }

  lemma RectRoundTrip(r: Rect)
    ensures RectFrom(RectJson(r)) == r
  {
    var m := RectJson(r).members;
    assert Find(m, "l") == Some(Num(r.l));
    assert Find(m, "t") == Find(m.rest, "t") == Some(Num(r.t));
    assert Find(m, "r") == Find(m.rest, "r") == Find(m.rest.rest, "r") == Some(Num(r.r));
    assert Find(m, "b") == Find(m.rest, "b") == Find(m.rest.rest, "b") == Find(m.rest.rest.rest, "b") == Some(Num(r.b));
  }

  lemma TopViewObjectRoundTrip(o: TopViewObject)
    ensures TopViewObjectFrom(TopViewObjectJson(o)) == o
  {
    var m := TopViewObjectJson(o).members;
    assert Find(m, "id") == Some(IntJson(o.id));
    assert Find(m, "cls") == Find(m.rest, "cls") == Some(Str(ClassName(o.cls)));
    assert Find(m, "pos") == Find(m.rest, "pos") == Find(m.rest.rest, "pos") == Some(PointJson(o.pos));
    assert Find(m, "edge") == Find(m.rest, "edge") == Find(m.rest.rest, "edge") == Some(Bool(o.edge));
    IntRoundTrip(o.id);
    ClassNameRoundTrip(o.cls);
    PointRoundTrip(o.pos);
  }

  lemma BlurTargetRoundTrip(b: BlurTarget)
    ensures BlurTargetFrom(BlurTargetJson(b)) == b
  {
    var m := BlurTargetJson(b).members;
    assert Find(m, "id") == Some(IntJson(b.id));
    assert Find(m, "cls") == Find(m.rest, "cls") == Some(Str(ClassName(b.cls)));
    assert Find(m, "box") == Find(m.rest, "box") == Find(m.rest.rest, "box") == Some(RectJson(b.box));
    IntRoundTrip(b.id);
    ClassNameRoundTrip(b.cls);
    RectRoundTrip(b.box);
  }

  /** The first four members, and what any other key is looked up in. */
  lemma RiskObjectFields(o: RiskObject)
    ensures var j := RiskObjectJson(o);
            && Field(j, "gid") == Some(IntJson(o.gid)) && Field(j, "cls") == Some(Str(ClassName(o.cls)))
            && Field(j, "pos") == Some(PointJson(o.pos)) && Field(j, "zoneId") == Some(IntJson(o.zoneId))
  {
    var m := RiskObjectJson(o).members;
    assert Find(m, "cls") == Find(m.rest, "cls");
    assert Find(m, "pos") == Find(m.rest, "pos") == Find(m.rest.rest, "pos");
    assert Find(m, "zoneId") == Find(m.rest, "zoneId") == Find(m.rest.rest, "zoneId")
      == Find(m.rest.rest.rest, "zoneId");
  }

  lemma RiskObjectOtherField(o: RiskObject, key: string)
    requires key != "gid" && key != "cls" && key != "pos" && key != "zoneId"
    ensures Field(RiskObjectJson(o), key) == Find(RiskObjectTail(o), key)
  {
    var m := RiskObjectJson(o).members;
    assert Find(m, key) == Find(m.rest, key) == Find(m.rest.rest, key) == Find(m.rest.rest.rest, key);
  }

  lemma RiskObjectFromFields(j: Json, o: RiskObject)
    requires Field(j, "gid") == Some(IntJson(o.gid)) && Field(j, "cls") == Some(Str(ClassName(o.cls)))
    requires Field(j, "pos") == Some(PointJson(o.pos)) && Field(j, "zoneId") == Some(IntJson(o.zoneId))
    requires Field(j, "level") == Some(Str(LevelName(o.level))) && Field(j, "nearest") == Some(IntJson(o.nearest))
    requires Field(j, "dist") == Some(Num(o.dist))
    ensures RiskObjectFrom(j) == o
  {
    IntBack(j, "gid", o.gid, 0);
    IntBack(j, "zoneId", o.zoneId, -1);
    IntBack(j, "nearest", o.nearest, 0);
    ClassBack(j, o.cls);
    PointRoundTrip(o.pos);
    LevelBack(j, o.level);
  }

  lemma RiskObjectRoundTrip(o: RiskObject)
    ensures RiskObjectFrom(RiskObjectJson(o)) == o
  {
    RiskObjectFields(o);
    RiskTailFields(o);
    RiskObjectOtherField(o, "level");
    RiskObjectOtherField(o, "nearest");
    RiskObjectOtherField(o, "dist");
    RiskObjectFromFields(RiskObjectJson(o), o);
  }

  lemma RiskTailFields(o: RiskObject)
    ensures Find(RiskObjectTail(o), "level") == Some(Str(LevelName(o.level)))
    ensures Find(RiskObjectTail(o), "nearest") == Some(IntJson(o.nearest))
    ensures Find(RiskObjectTail(o), "dist") == Some(Num(o.dist))
  {
    var m := RiskObjectTail(o);
    assert Find(m, "nearest") == Find(m.rest, "nearest");
    assert Find(m, "dist") == Find(m.rest, "dist") == Find(m.rest.rest, "dist");
  }

  // ---------- messages ----------

  lemma MessageSound(key1: string, a: Json, key2: string, b: Json, key3: string, c: Json, key4: string, items: Items,
                     size: nat)
    requires IsPlain(key1) && IsPlain(key2) && IsPlain(key3) && IsPlain(key4)
    requires |key1| <= 7 && |key2| <= 7 && |key3| <= 7 && |key4| <= 7
    requires Sound(a, 20, 0) && Sound(b, 20, 0) && Sound(c, 20, 0)
    requires ItemsWellFormed(items) && ItemsSize(items) <= size && ItemsDepth(items) <= 2
    ensures Sound(Message(key1, a, key2, b, key3, c, key4, items), 106 + size, 4)
  {
    ArraySize(items);
    var m4 := Member(key4, Arr(items), NoMembers);
    var m3 := Member(key3, c, m4);
    var m2 := Member(key2, b, m3);
    MemberSound(key4, Arr(items), NoMembers, size + 1, 1, 3);
    MemberSound(key3, c, m4, 20, 13 + size, 3);
    MemberSound(key2, b, m3, 20, 44 + size, 3);
    MemberSound(key1, a, m2, 20, 75 + size, 3);
    ObjectSound(Member(key1, a, m2), 106 + size, 3);
  }

  lemma MessageFields(key1: string, a: Json, key2: string, b: Json, key3: string, c: Json, key4: string, items: Items)
    requires key1 != key2 && key1 != key3 && key1 != key4 && key2 != key3 && key2 != key4 && key3 != key4
    ensures var j := Message(key1, a, key2, b, key3, c, key4, items);
            Field(j, key1) == Some(a) && Field(j, key2) == Some(b) && Field(j, key3) == Some(c)
              && Field(j, key4) == Some(Arr(items))
  {
    var m := Message(key1, a, key2, b, key3, c, key4, items).members;
    assert Find(m, key2) == Find(m.rest, key2) == Some(b);
    assert Find(m, key3) == Find(m.rest, key3) == Find(m.rest.rest, key3) == Some(c);
    assert Find(m, key4) == Find(m.rest, key4) == Find(m.rest.rest, key4) == Find(m.rest.rest.rest, key4)
      == Some(Arr(items));
  }

  lemma NoOtherField(key1: string, a: Json, key2: string, b: Json, key3: string, c: Json, key4: string, items: Items,
                     key: string)
    requires key != key1 && key != key2 && key != key3 && key != key4
    ensures Field(Message(key1, a, key2, b, key3, c, key4, items), key) == None
  {
    var m := Message(key1, a, key2, b, key3, c, key4, items).members;
    assert Find(m, key) == Find(m.rest, key) == Find(m.rest.rest, key) == Find(m.rest.rest.rest, key)
      == Find(NoMembers, key);
  }

  lemma ObjectTextStarts(m: Members)
    ensures Plain(Obj(m)) != ""
  {
    if m.Member? { MembersStart(m, ""); }
  }

  /** A tree with one list is admitted exactly if that list is short enough; its text always is, then. */
  lemma AdmittedByList(j: Json, items: Items, size: nat, n: nat)
    requires Sound(j, 106 + size, 4) && Plain(j) != "" && n == ItemCount(items)
    requires TooMany(j, "objects") || TooMany(j, "blurs") <==> n > MAX_OBJECTS_PER_MESSAGE
    requires n <= MAX_OBJECTS_PER_MESSAGE ==> size <= 1 + 256 * 227
    ensures if n <= MAX_OBJECTS_PER_MESSAGE then Admitted(Plain(j)) == Some(j) && Size(j) < MAX_JSON_PAYLOAD_BYTES
            else Admitted(Plain(j)) == None
  {
    RoundTrip(j);
  }

  lemma OneList(j: Json, key: string, other: string, items: Items)
    requires Field(j, key) == Some(Arr(items)) && Field(j, other) == None
    ensures TooMany(j, key) || TooMany(j, other) <==> ItemCount(items) > MAX_OBJECTS_PER_MESSAGE
  {}

  /** Four different short keys; the last one names the list, `other` the list of the other kind. */
  predicate KeysOk(key1: string, key2: string, key3: string, key4: string, other: string) {
    && IsPlain(key1) && IsPlain(key2) && IsPlain(key3) && IsPlain(key4)
    && |key1| <= 7 && |key2| <= 7 && |key3| <= 7 && |key4| <= 7
    && key1 != key2 && key1 != key3 && key1 != key4 && key2 != key3 && key2 != key4 && key3 != key4
    && other != key1 && other != key2 && other != key3
    && ((key4 == "objects" && other == "blurs") || (key4 == "blurs" && other == "objects"))
  }

  lemma TopViewKeys()
    ensures KeysOk("v", "ts", "ch", "objects", "blurs")
  {}

  lemma BlurKeys()
    ensures KeysOk("v", "ts", "ch", "blurs", "objects")
  {}

  lemma RiskKeys()
    ensures KeysOk("v", "ts", "level", "objects", "blurs")
  {}

  lemma MessageAdmitted(key1: string, a: Json, key2: string, b: Json, key3: string, c: Json, key4: string, items: Items,
                        other: string, size: nat, n: nat)
    requires KeysOk(key1, key2, key3, key4, other)
    requires Sound(a, 20, 0) && Sound(b, 20, 0) && Sound(c, 20, 0)
    requires ItemsWellFormed(items) && ItemsSize(items) <= size && ItemsDepth(items) <= 2 && ItemCount(items) == n
    requires n <= MAX_OBJECTS_PER_MESSAGE ==> size <= 1 + 256 * 227
    ensures var j := Message(key1, a, key2, b, key3, c, key4, items);
            if n <= MAX_OBJECTS_PER_MESSAGE then Admitted(Plain(j)) == Some(j) && Size(j) < MAX_JSON_PAYLOAD_BYTES
            else Admitted(Plain(j)) == None
  {
    var j := Message(key1, a, key2, b, key3, c, key4, items);
    MessageSound(key1, a, key2, b, key3, c, key4, items, size);
    MessageFields(key1, a, key2, b, key3, c, key4, items);
    NoOtherField(key1, a, key2, b, key3, c, key4, items, other);
    OneList(j, key4, other, items);
    ObjectTextStarts(j.members);
    AdmittedByList(j, items, size, n);
  }

  lemma LargerFactor(n: nat, m: nat, size: nat)
    requires n <= m
    ensures n * size <= m * size
  {}

  lemma ListSize(n: nat, size: nat)
    requires n <= MAX_OBJECTS_PER_MESSAGE && size <= 227
    ensures 1 + n * size <= 1 + 256 * 227
  {
    LargerFactor(n, 256, size);
    LargerFactor(size, 227, 256);
  }

  // ---------- top view ----------

  lemma TopViewElementsSound(f: TopViewFrame)
    requires TopViewOk(f)
    ensures forall i :: 0 <= i < |f.objects| ==> Sound(TopViewObjectJson(f.objects[i]), 127, 2)
  {
    forall i | 0 <= i < |f.objects|
      ensures Sound(TopViewObjectJson(f.objects[i]), 127, 2) { TopViewObjectSound(f.objects[i]); }
  }

  lemma TopViewItemsSound(f: TopViewFrame, items: Items, size: nat)
    requires TopViewOk(f) && items == ItemsOf(f.objects, TopViewObjectJson) && size == 1 + |f.objects| * 128
    ensures ItemsWellFormed(items) && ItemsSize(items) <= size && ItemsDepth(items) <= 2
    ensures ItemCount(items) == |f.objects|
  {
    TopViewElementsSound(f);
    ListFacts(f.objects, TopViewObjectJson, items, 127, 2, size);
  }

  lemma TopViewAdmitted(f: TopViewFrame)
    requires TopViewOk(f)
    ensures var j := TopViewJson(f);
            if |f.objects| <= MAX_OBJECTS_PER_MESSAGE
              then Admitted(Plain(j)) == Some(j) && Size(j) < MAX_JSON_PAYLOAD_BYTES
            else Admitted(Plain(j)) == None
  {
    var items, n := ItemsOf(f.objects, TopViewObjectJson), |f.objects|;
    var size := 1 + n * 128;
    TopViewKeys();
    TopViewItemsSound(f, items, size);
    IntSound(f.v);
    IntSound(f.ts);
    IntSound(f.ch);
    if n <= MAX_OBJECTS_PER_MESSAGE { ListSize(n, 128); }
    MessageAdmitted("v", IntJson(f.v), "ts", IntJson(f.ts), "ch", IntJson(f.ch), "objects", items, "blurs", size, n);
  }

  lemma TopViewFromFields(j: Json, f: TopViewFrame, items: Items)
    requires Field(j, "v") == Some(IntJson(f.v)) && Field(j, "ts") == Some(IntJson(f.ts))
    requires Field(j, "ch") == Some(IntJson(f.ch))
    requires Field(j, "objects") == Some(Arr(items)) && ItemCount(items) <= MAX_OBJECTS_PER_MESSAGE
    requires ListOf(items, TopViewObjectFrom) == f.objects
    ensures TopViewFrom(j) == f
  {
    IntBack(j, "v", f.v, 0);
    IntBack(j, "ts", f.ts, 0);
    IntBack(j, "ch", f.ch, 0);
  }

  lemma TopViewListBack(f: TopViewFrame, items: Items)
    requires items == ItemsOf(f.objects, TopViewObjectJson)
    ensures ListOf(items, TopViewObjectFrom) == f.objects && ItemCount(items) == |f.objects|
  {
    ItemsOfCount(f.objects, TopViewObjectJson);
    forall i | 0 <= i < |f.objects| ensures TopViewObjectFrom(TopViewObjectJson(f.objects[i])) == f.objects[i] {
      TopViewObjectRoundTrip(f.objects[i]);
    }
    ListRoundTrip(f.objects, TopViewObjectJson, TopViewObjectFrom);
  }

  lemma TopViewReadBack(f: TopViewFrame)
    requires |f.objects| <= MAX_OBJECTS_PER_MESSAGE
    ensures TopViewFrom(TopViewJson(f)) == f
  {
    var items := ItemsOf(f.objects, TopViewObjectJson);
    TopViewListBack(f, items);
    MessageFields("v", IntJson(f.v), "ts", IntJson(f.ts), "ch", IntJson(f.ch), "objects", items);
    TopViewFromFields(TopViewJson(f), f, items);
  }

  /** Decoding an encoded top-view frame gives that frame, if and only if it has at most 256
      objects; then its text stays below the payload limit. */
  lemma TopViewRoundTrip(f: TopViewFrame)
    requires TopViewOk(f)
    ensures |f.objects| <= MAX_OBJECTS_PER_MESSAGE ==> |Plain(TopViewJson(f))| < MAX_JSON_PAYLOAD_BYTES
    ensures DecodeTopView(Plain(TopViewJson(f))) == f <==> |f.objects| <= MAX_OBJECTS_PER_MESSAGE
  {
    TopViewAdmitted(f);
    if |f.objects| <= MAX_OBJECTS_PER_MESSAGE { TopViewReadBack(f); }
  }

  // ---------- blur ----------

  lemma BlurElementsSound(f: BlurFrame)
    requires BlurOk(f)
    ensures forall i :: 0 <= i < |f.blurs| ==> Sound(BlurTargetJson(f.blurs[i]), 172, 2)
  {
    forall i | 0 <= i < |f.blurs| ensures Sound(BlurTargetJson(f.blurs[i]), 172, 2) { BlurTargetSound(f.blurs[i]); }
  }

  lemma BlurItemsSound(f: BlurFrame, items: Items, size: nat)
    requires BlurOk(f) && items == ItemsOf(f.blurs, BlurTargetJson) && size == 1 + |f.blurs| * 173
    ensures ItemsWellFormed(items) && ItemsSize(items) <= size && ItemsDepth(items) <= 2
    ensures ItemCount(items) == |f.blurs|
  {
    BlurElementsSound(f);
    ListFacts(f.blurs, BlurTargetJson, items, 172, 2, size);
  }

  lemma BlurAdmitted(f: BlurFrame)
    requires BlurOk(f)
    ensures var j := BlurJson(f);
            if |f.blurs| <= MAX_OBJECTS_PER_MESSAGE
              then Admitted(Plain(j)) == Some(j) && Size(j) < MAX_JSON_PAYLOAD_BYTES
            else Admitted(Plain(j)) == None
  {
    var items, n := ItemsOf(f.blurs, BlurTargetJson), |f.blurs|;
    var size := 1 + n * 173;
    BlurKeys();
    BlurItemsSound(f, items, size);
    IntSound(f.v);
    IntSound(f.ts);
    IntSound(f.ch);
    if n <= MAX_OBJECTS_PER_MESSAGE { ListSize(n, 173); }
    MessageAdmitted("v", IntJson(f.v), "ts", IntJson(f.ts), "ch", IntJson(f.ch), "blurs", items, "objects", size, n);
  }

  lemma BlurFromFields(j: Json, f: BlurFrame, items: Items)
    requires Field(j, "v") == Some(IntJson(f.v)) && Field(j, "ts") == Some(IntJson(f.ts))
    requires Field(j, "ch") == Some(IntJson(f.ch))
    requires Field(j, "blurs") == Some(Arr(items)) && ItemCount(items) <= MAX_OBJECTS_PER_MESSAGE
    requires ListOf(items, BlurTargetFrom) == f.blurs
    ensures BlurFrom(j) == f
  {
    IntBack(j, "v", f.v, 0);
    IntBack(j, "ts", f.ts, 0);
    IntBack(j, "ch", f.ch, 0);
  }

  lemma BlurListBack(f: BlurFrame, items: Items)
    requires items == ItemsOf(f.blurs, BlurTargetJson)
    ensures ListOf(items, BlurTargetFrom) == f.blurs && ItemCount(items) == |f.blurs|
  {
    ItemsOfCount(f.blurs, BlurTargetJson);
    forall i | 0 <= i < |f.blurs| ensures BlurTargetFrom(BlurTargetJson(f.blurs[i])) == f.blurs[i] {
      BlurTargetRoundTrip(f.blurs[i]);
    }
    ListRoundTrip(f.blurs, BlurTargetJson, BlurTargetFrom);
  }

  lemma BlurReadBack(f: BlurFrame)
    requires |f.blurs| <= MAX_OBJECTS_PER_MESSAGE
    ensures BlurFrom(BlurJson(f)) == f
  {
    var items := ItemsOf(f.blurs, BlurTargetJson);
    BlurListBack(f, items);
    MessageFields("v", IntJson(f.v), "ts", IntJson(f.ts), "ch", IntJson(f.ch), "blurs", items);
    BlurFromFields(BlurJson(f), f, items);
  }

  lemma BlurRoundTrip(f: BlurFrame)
    requires BlurOk(f)
    ensures |f.blurs| <= MAX_OBJECTS_PER_MESSAGE ==> |Plain(BlurJson(f))| < MAX_JSON_PAYLOAD_BYTES
    ensures DecodeBlur(Plain(BlurJson(f))) == f <==> |f.blurs| <= MAX_OBJECTS_PER_MESSAGE
  {
    BlurAdmitted(f);
    if |f.blurs| <= MAX_OBJECTS_PER_MESSAGE { BlurReadBack(f); }
  }

  // ---------- risk ----------

  lemma RiskElementsSound(f: RiskFrame)
    requires RiskOk(f)
    ensures forall i :: 0 <= i < |f.objects| ==> Sound(RiskObjectJson(f.objects[i]), 226, 2)
  {
    forall i | 0 <= i < |f.objects|
      ensures Sound(RiskObjectJson(f.objects[i]), 226, 2) { RiskObjectSound(f.objects[i]); }
  }

  lemma RiskItemsSound(f: RiskFrame, items: Items, size: nat)
    requires RiskOk(f) && items == ItemsOf(f.objects, RiskObjectJson) && size == 1 + |f.objects| * 227
    ensures ItemsWellFormed(items) && ItemsSize(items) <= size && ItemsDepth(items) <= 2
    ensures ItemCount(items) == |f.objects|
  {
    RiskElementsSound(f);
    ListFacts(f.objects, RiskObjectJson, items, 226, 2, size);
  }

  lemma RiskAdmitted(f: RiskFrame)
    requires RiskOk(f)
    ensures var j := RiskJson(f);
            if |f.objects| <= MAX_OBJECTS_PER_MESSAGE
              then Admitted(Plain(j)) == Some(j) && Size(j) < MAX_JSON_PAYLOAD_BYTES
            else Admitted(Plain(j)) == None
  {
    var items, n := ItemsOf(f.objects, RiskObjectJson), |f.objects|;
    var size := 1 + n * 227;
    RiskKeys();
    RiskItemsSound(f, items, size);
    IntSound(f.v);
    IntSound(f.ts);
    StringSound(LevelName(f.level), 7);
    if n <= MAX_OBJECTS_PER_MESSAGE { ListSize(n, 227); }
    MessageAdmitted("v", IntJson(f.v), "ts", IntJson(f.ts), "level", Str(LevelName(f.level)), "objects", items, "blurs",
                    size, n);
  }

  lemma RiskFromFields(j: Json, f: RiskFrame, items: Items)
    requires Field(j, "v") == Some(IntJson(f.v)) && Field(j, "ts") == Some(IntJson(f.ts))
    requires Field(j, "level") == Some(Str(LevelName(f.level)))
    requires Field(j, "objects") == Some(Arr(items)) && ItemCount(items) <= MAX_OBJECTS_PER_MESSAGE
    requires ListOf(items, RiskObjectFrom) == f.objects
    ensures RiskFrom(j) == f
  {
    IntBack(j, "v", f.v, 0);
    IntBack(j, "ts", f.ts, 0);
    LevelBack(j, f.level);
  }

  lemma RiskListBack(f: RiskFrame, items: Items)
    requires items == ItemsOf(f.objects, RiskObjectJson)
    ensures ListOf(items, RiskObjectFrom) == f.objects && ItemCount(items) == |f.objects|
  {
    ItemsOfCount(f.objects, RiskObjectJson);
    forall i | 0 <= i < |f.objects| ensures RiskObjectFrom(RiskObjectJson(f.objects[i])) == f.objects[i] {
      RiskObjectRoundTrip(f.objects[i]);
    }
    ListRoundTrip(f.objects, RiskObjectJson, RiskObjectFrom);
  }

  lemma RiskReadBack(f: RiskFrame)
    requires |f.objects| <= MAX_OBJECTS_PER_MESSAGE
    ensures RiskFrom(RiskJson(f)) == f
  {
    var items := ItemsOf(f.objects, RiskObjectJson);
    RiskListBack(f, items);
    MessageFields("v", IntJson(f.v), "ts", IntJson(f.ts), "level", Str(LevelName(f.level)), "objects", items);
    RiskFromFields(RiskJson(f), f, items);
  }

  lemma RiskRoundTrip(f: RiskFrame)
    requires RiskOk(f)
    ensures |f.objects| <= MAX_OBJECTS_PER_MESSAGE ==> |Plain(RiskJson(f))| < MAX_JSON_PAYLOAD_BYTES
    ensures DecodeRisk(Plain(RiskJson(f))) == f <==> |f.objects| <= MAX_OBJECTS_PER_MESSAGE
  {
    RiskAdmitted(f);
    if |f.objects| <= MAX_OBJECTS_PER_MESSAGE { RiskReadBack(f); }
  }
}
