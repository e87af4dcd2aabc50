/** The messages between the servers and the client (shared Contract.h): their JSON trees, what the
    receiver makes of a tree, and the limits it enforces. A floating-point value is its number token. */
module Contract {
  import opened Domain
  import opened Decimal
  import opened Json

  const MAX_JSON_PAYLOAD_BYTES := 1024 * 1024
  const MAX_JSON_DEPTH := 32
  const MAX_OBJECTS_PER_MESSAGE := 256

  /** `std::to_chars` writes a double with at most 24 characters. */
  const MAX_DOUBLE_LENGTH := 24

  type Token = s: string | IsNumber(s) witness "0"

  datatype Level = NoRisk | Warning | Danger
  datatype Point = Point(x: Token, y: Token)
  datatype Rect = Rect(l: Token, t: Token, r: Token, b: Token)

  datatype TopViewObject = TopViewObject(id: int, cls: ObjectClass, pos: Point, edge: bool)
  datatype TopViewFrame = TopViewFrame(v: int, ts: int, ch: int, objects: seq<TopViewObject>)
  datatype BlurTarget = BlurTarget(id: int, cls: ObjectClass, box: Rect)
  datatype BlurFrame = BlurFrame(v: int, ts: int, ch: int, blurs: seq<BlurTarget>)
  datatype RiskObject = RiskObject(gid: int, cls: ObjectClass, pos: Point, zoneId: int, level: Level, nearest: int,
                                   dist: Token)
  datatype RiskFrame = RiskFrame(v: int, ts: int, level: Level, objects: seq<RiskObject>)

  // ---------- names ----------

  function ClassName(c: ObjectClass): (s: string)
    ensures IsPlain(s) && |s| <= 12
  {
    match c
    case Human => "Human"
    case Vehicle => "Vehicle"
    case Head => "Head"
    case LicensePlate => "LicensePlate"
    case Unknown => "Unknown"
  }

  function Lower(c: char): char { if 'A' <= c <= 'Z' then (c as int + 32) as char else c }

  function LowerCase(s: string): (r: string)
    ensures |r| == |s|
  {
    seq(|s|, i requires 0 <= i < |s| => Lower(s[i]))
  }

  /** Canonical names first, then aliases in any case. */
  function ClassFromString(s: string): ObjectClass {
    if s == "Human" then Human
    else if s == "Vehicle" then Vehicle
    else if s == "Head" then Head
    else if s == "LicensePlate" then LicensePlate
    else
      var low := LowerCase(s);
      if low in ["human", "person", "pedestrian", "people"] then Human
      else if low in ["vehicle", "car", "truck", "bus", "motorcycle", "bicycle"] then Vehicle
      else if low in ["head", "face"] then Head
      else if low in ["licenseplate", "license_plate", "plate"] then LicensePlate
      else Unknown
  }

  lemma ClassNameRoundTrip(c: ObjectClass)
    ensures ClassFromString(ClassName(c)) == c
  {
    if c == Unknown {
      var low := LowerCase("Unknown");
      assert low[1] == 'n' && low[2] == 'k' && |low| == 7;
    }
  }

  /** The same letter of the alphabet, large or small, or the same character. */
  predicate SameLetter(a: char, b: char) {
    a == b || ('A' <= a <= 'Z' && b as int == a as int + 32) || ('A' <= b <= 'Z' && a as int == b as int + 32)
  }

  /** Names are read without regard to case. */
  lemma CaseDoesNotMatter(s: string, t: string)
    requires |s| == |t| && forall i :: 0 <= i < |s| ==> SameLetter(s[i], t[i])
    ensures ClassFromString(s) == ClassFromString(t)
  {
    assert LowerCase(s) == LowerCase(t);
    CanonicalAreAliases(s);
    CanonicalAreAliases(t);
  }

  lemma CanonicalAreAliases(s: string)
    ensures s == "Human" ==> LowerCase(s) == "human"
    ensures s == "Vehicle" ==> LowerCase(s) == "vehicle"
    ensures s == "Head" ==> LowerCase(s) == "head"
    ensures s == "LicensePlate" ==> LowerCase(s) == "licenseplate"
  {}

  function LevelName(l: Level): (s: string)
    ensures IsPlain(s) && |s| <= 7
  {
    match l
    case Warning => "Warning"
    case Danger => "Danger"
    case NoRisk => "None"
  }

  function LevelFromString(s: string): Level {
    if s == "Warning" then Warning else if s == "Danger" then Danger else NoRisk
  }

  lemma LevelNameRoundTrip(l: Level)
    ensures LevelFromString(LevelName(l)) == l
  {}

  // ---------- to_json ----------

  function IntJson(n: int): Json { Num(IntText(n)) }

  function PointJson(p: Point): Json { Obj(Member("x", Num(p.x), Member("y", Num(p.y), NoMembers))) }

  function RectJson(r: Rect): Json {
    Obj(Member("l", Num(r.l), Member("t", Num(r.t), Member("r", Num(r.r), Member("b", Num(r.b), NoMembers)))))
  }

  function TopViewObjectJson(o: TopViewObject): Json {
    Obj(Member("id", IntJson(o.id), Member("cls", Str(ClassName(o.cls)),
        Member("pos", PointJson(o.pos), Member("edge", Bool(o.edge), NoMembers)))))
  }

  function BlurTargetJson(b: BlurTarget): Json {
    Obj(Member("id", IntJson(b.id), Member("cls", Str(ClassName(b.cls)), Member("box", RectJson(b.box), NoMembers))))
  }

  function RiskObjectTail(o: RiskObject): Members {
    Member("level", Str(LevelName(o.level)),
           Member("nearest", IntJson(o.nearest), Member("dist", Num(o.dist), NoMembers)))
  }

  function RiskObjectJson(o: RiskObject): Json {
    Obj(Member("gid", IntJson(o.gid), Member("cls", Str(ClassName(o.cls)),
        Member("pos", PointJson(o.pos), Member("zoneId", IntJson(o.zoneId), RiskObjectTail(o))))))
  }

  function ItemsOf<T>(objects: seq<T>, toJson: T -> Json): Items {
    if objects == [] then NoItems else Item(toJson(objects[0]), ItemsOf(objects[1..], toJson))
  }

  /** Three short members and a list: the shape of every message. */
  function Message(key1: string, a: Json, key2: string, b: Json, key3: string, c: Json, key4: string,
                   items: Items): Json {
    Obj(Member(key1, a, Member(key2, b, Member(key3, c, Member(key4, Arr(items), NoMembers)))))
  }

  function TopViewJson(f: TopViewFrame): Json {
    Message("v", IntJson(f.v), "ts", IntJson(f.ts), "ch", IntJson(f.ch), "objects",
            ItemsOf(f.objects, TopViewObjectJson))
  }

  function BlurJson(f: BlurFrame): Json {
    Message("v", IntJson(f.v), "ts", IntJson(f.ts), "ch", IntJson(f.ch), "blurs", ItemsOf(f.blurs, BlurTargetJson))
  }

  function RiskJson(f: RiskFrame): Json {
    Message("v", IntJson(f.v), "ts", IntJson(f.ts), "level", Str(LevelName(f.level)), "objects",
            ItemsOf(f.objects, RiskObjectJson))
  }

  // ---------- from_json ----------

  function Find(members: Members, key: string): Option<Json> {
    match members
    case NoMembers => None
    case Member(k, value, rest) => if k == key then Some(value) else Find(rest, key)
  }

  /** `j.find(key)`; a value that is no object has no members. */
  function Field(j: Json, key: string): Option<Json> {
    if j.Obj? then Find(j.members, key) else None
  }

  function IntField(j: Json, key: string, fallback: int): int {
    match Field(j, key)
    case Some(Num(token)) => (match IntOf(token) case Some(n) => n case None => fallback)
    case Some(Bool(b)) => if b then 1 else 0
    case _ => fallback
  }

  function TokenField(j: Json, key: string, fallback: Token): Token {
    match Field(j, key)
    case Some(Num(token)) => if IsNumber(token) then token else fallback
    case Some(Bool(b)) => if b then "1" else "0"
    case _ => fallback
  }

  function StringField(j: Json, key: string): string {
    match Field(j, key)
    case Some(Str(s)) => s
    case _ => ""
  }

  function BoolField(j: Json, key: string): bool {
    match Field(j, key)
    case Some(Bool(b)) => b
    case _ => false
  }

  /** A nested object, as its own tree; missing and null ones read as empty. */
  function ObjectField(j: Json, key: string): Json {
    match Field(j, key)
    case Some(value) => value
    case None => Null
  }

  function ItemCount(items: Items): nat { if items.NoItems? then 0 else 1 + ItemCount(items.tail) }

  function ListOf<T>(items: Items, fromJson: Json -> T): seq<T> {
    if items.NoItems? then [] else [fromJson(items.head)] + ListOf(items.tail, fromJson)
  }

  function VectorField<T>(j: Json, key: string, fromJson: Json -> T): seq<T> {
    match Field(j, key)
    case Some(Arr(items)) => if ItemCount(items) > MAX_OBJECTS_PER_MESSAGE then [] else ListOf(items, fromJson)
    case _ => []
  }

  function PointFrom(j: Json): Point { Point(TokenField(j, "x", "0"), TokenField(j, "y", "0")) }

  function RectFrom(j: Json): Rect {
    Rect(TokenField(j, "l", "0"), TokenField(j, "t", "0"), TokenField(j, "r", "0"), TokenField(j, "b", "0"))
  }

  function TopViewObjectFrom(j: Json): TopViewObject {
    TopViewObject(IntField(j, "id", 0), ClassFromString(StringField(j, "cls")), PointFrom(ObjectField(j, "pos")),
                  BoolField(j, "edge"))
  }

  function BlurTargetFrom(j: Json): BlurTarget {
    BlurTarget(IntField(j, "id", 0), ClassFromString(StringField(j, "cls")), RectFrom(ObjectField(j, "box")))
  }

  function RiskObjectFrom(j: Json): RiskObject {
    RiskObject(IntField(j, "gid", 0), ClassFromString(StringField(j, "cls")), PointFrom(ObjectField(j, "pos")),
               IntField(j, "zoneId", -1), LevelFromString(StringField(j, "level")), IntField(j, "nearest", 0),
               TokenField(j, "dist", "-1"))
  }

  function TopViewFrom(j: Json): TopViewFrame {
    TopViewFrame(IntField(j, "v", 0), IntField(j, "ts", 0), IntField(j, "ch", 0),
                 VectorField(j, "objects", TopViewObjectFrom))
  }

  function BlurFrom(j: Json): BlurFrame {
    BlurFrame(IntField(j, "v", 0), IntField(j, "ts", 0), IntField(j, "ch", 0), VectorField(j, "blurs", BlurTargetFrom))
  }

  function RiskFrom(j: Json): RiskFrame {
    RiskFrame(IntField(j, "v", 0), IntField(j, "ts", 0), LevelFromString(StringField(j, "level")),
              VectorField(j, "objects", RiskObjectFrom))
  }

  // ---------- decode ----------

  predicate TooMany(j: Json, key: string) {
    match Field(j, key)
    case Some(Arr(items)) => ItemCount(items) > MAX_OBJECTS_PER_MESSAGE
    case _ => false
  }

  /** The tree of a payload within the limits. */
  function Admitted(payload: string): Option<Json> {
    if payload == "" || |payload| > MAX_JSON_PAYLOAD_BYTES then None
    else match Parse(payload)
      case None => None
      case Some(j) =>
        if Depth(j) > MAX_JSON_DEPTH || TooMany(j, "objects") || TooMany(j, "blurs") then None else Some(j)
  }

  function DecodeTopView(payload: string): TopViewFrame {
    match Admitted(payload)
    case None => TopViewFrame(0, 0, 0, [])
    case Some(j) => TopViewFrom(j)
  }

  function DecodeBlur(payload: string): BlurFrame {
    match Admitted(payload)
    case None => BlurFrame(0, 0, 0, [])
    case Some(j) => BlurFrom(j)
  }

  function DecodeRisk(payload: string): RiskFrame {
    match Admitted(payload)
    case None => RiskFrame(0, 0, NoRisk, [])
    case Some(j) => RiskFrom(j)
  }

  // ---------- lists ----------

  lemma {:induction false} ItemsOfCount<T>(objects: seq<T>, toJson: T -> Json)
    ensures ItemCount(ItemsOf(objects, toJson)) == |objects|
  {
    if objects != [] { ItemsOfCount(objects[1..], toJson); }
  }

  lemma {:induction false} ListRoundTrip<T>(objects: seq<T>, toJson: T -> Json, fromJson: Json -> T)
    requires forall i :: 0 <= i < |objects| ==> fromJson(toJson(objects[i])) == objects[i]
    ensures ListOf(ItemsOf(objects, toJson), fromJson) == objects
  {
    if objects != [] { ListRoundTrip(objects[1..], toJson, fromJson); }
  }

  /** Every element well formed, at most `size` long and `depth` deep. */
  predicate Sound(j: Json, size: nat, depth: nat) {
    WellFormed(j) && Size(j) <= size && Depth(j) <= depth
  }

  lemma {:induction false} ListSound<T>(objects: seq<T>, toJson: T -> Json, size: nat, depth: nat, total: nat)
    requires forall i :: 0 <= i < |objects| ==> Sound(toJson(objects[i]), size, depth)
    requires total == 1 + |objects| * (size + 1)
    ensures var items := ItemsOf(objects, toJson);
            ItemsWellFormed(items) && ItemsSize(items) <= total && ItemsDepth(items) <= depth
  {
    if objects != [] {
      var n := |objects| - 1;
      assert (n + 1) * (size + 1) == n * (size + 1) + (size + 1);
      ListSound(objects[1..], toJson, size, depth, 1 + n * (size + 1));
      assert Sound(toJson(objects[0]), size, depth);
    }
  }

  lemma ListFacts<T>(objects: seq<T>, toJson: T -> Json, items: Items, size: nat, depth: nat, total: nat)
    requires forall i :: 0 <= i < |objects| ==> Sound(toJson(objects[i]), size, depth)
    requires items == ItemsOf(objects, toJson) && total == 1 + |objects| * (size + 1)
    ensures ItemsWellFormed(items) && ItemsSize(items) <= total && ItemsDepth(items) <= depth
    ensures ItemCount(items) == |objects|
  {
    ListSound(objects, toJson, size, depth, total);
    ItemsOfCount(objects, toJson);
  }

  lemma ArraySize(items: Items)
    ensures Size(Arr(items)) <= ItemsSize(items) + 1
  {
    if items.Item? { ItemsLength("[", items); }
  }

  lemma ObjectSize(members: Members)
    requires members.Member?
    ensures Size(Obj(members)) == MembersSize(members)
  {
    MembersLength("{", members);
  }

  // ---------- numbers ----------

  lemma {:induction false} DigitRunOfDigits(s: string)
    requires AllDigits(s)
    ensures DigitRun(s) == |s|
  {
    if s != [] { DigitRunOfDigits(s[1..]); }
  }

  lemma DigitsAreUnsigned(n: nat)
    ensures IsUnsigned(Digits(n))
  {
    var s := Digits(n);
    DigitRunOfDigits(s);
    assert s[|s|..] == [];
    if n > 0 { LeadingDigit(n); }
  }

  lemma IntIsNumber(n: int)
    ensures IsNumber(IntText(n))
  {
    if n < 0 {
      DigitsAreUnsigned(-n);
      assert IntText(n)[1..] == Digits(-n);
    } else {
      DigitsAreUnsigned(n);
      assert IsDigit(IntText(n)[0]);
    }
  }

  lemma IntSound(n: int)
    requires IsInt64(n)
    ensures Sound(IntJson(n), 20, 0)
  {
    IntIsNumber(n);
    Int64Length(n);
    assert IntText(n) + "" == IntText(n);
  }

  lemma TokenSound(t: Token)
    requires |t| <= MAX_DOUBLE_LENGTH
    ensures Sound(Num(t), MAX_DOUBLE_LENGTH, 0)
  {
    assert t + "" == t;
  }
}
