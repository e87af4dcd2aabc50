/** JSON values, their text, and a parser for it (sections 2 to 7 of RFC 8259, without escapes in
    strings). Numbers are kept as the tokens they are written with. */
module Json {
  import opened Domain
  import opened Decimal

  datatype Json = Null | Bool(b: bool) | Num(token: string) | Str(s: string) | Arr(items: Items) | Obj(members: Members)
  datatype Items = NoItems | Item(head: Json, tail: Items)
  datatype Members = NoMembers | Member(key: string, value: Json, rest: Members)

  // ---------- tokens ----------

  predicate IsSpace(c: char) { c == ' ' || c == '\t' || c == '\n' || c == '\r' }

  predicate IsPlainChar(c: char) { c >= ' ' && c != '"' && c != '\\' }

  /** A string that needs no escapes. */
  predicate IsPlain(s: string) { forall i :: 0 <= i < |s| ==> IsPlainChar(s[i]) }

  predicate IsNumberChar(c: char) { IsDigit(c) || c == '-' || c == '+' || c == '.' || c == 'e' || c == 'E' }

  function DigitRun(s: string): (n: nat)
    ensures n <= |s| && forall i :: 0 <= i < n ==> IsDigit(s[i])
  {
    if s != [] && IsDigit(s[0]) then 1 + DigitRun(s[1..]) else 0
  }

  predicate IsExponent(s: string) {
    s == [] ||
    ((s[0] == 'e' || s[0] == 'E')
     && var rest := if |s| > 1 && (s[1] == '+' || s[1] == '-') then s[2..] else s[1..];
        rest != [] && DigitRun(rest) == |rest|)
  }

  predicate IsFraction(s: string) {
    if s != [] && s[0] == '.' then DigitRun(s[1..]) > 0 && IsExponent(s[1 + DigitRun(s[1..])..]) else IsExponent(s)
  }

  predicate IsUnsigned(s: string) {
    var n := DigitRun(s);
    n > 0 && (n == 1 || s[0] != '0') && IsFraction(s[n..])
  }

  /** number = [ minus ] int [ frac ] [ exp ]. */
  predicate IsNumber(s: string) {
    s != [] && if s[0] == '-' then IsUnsigned(s[1..]) else IsUnsigned(s)
  }

  predicate WellFormed(j: Json) {
    match j
    case Num(token) => IsNumber(token)
    case Str(s) => IsPlain(s)
    case Arr(items) => ItemsWellFormed(items)
    case Obj(members) => MembersWellFormed(members)
    case Null => true
    case Bool(_) => true
  }

  predicate ItemsWellFormed(items: Items) {
    items.Item? ==> WellFormed(items.head) && ItemsWellFormed(items.tail)
  }

  predicate MembersWellFormed(members: Members) {
    members.Member? ==> IsPlain(members.key) && WellFormed(members.value) && MembersWellFormed(members.rest)
  }

  // ---------- text ----------

  function Quoted(s: string, tail: string): string { "\"" + (s + ("\"" + tail)) }

  /** The text of a value, followed by `tail`. */
  function Text(j: Json, tail: string): string
    decreases j
  {
    match j
    case Null => "null" + tail
    case Bool(b) => (if b then "true" else "false") + tail
    case Num(token) => token + tail
    case Str(s) => Quoted(s, tail)
    case Arr(items) => if items.NoItems? then "[]" + tail else ItemsText("[", items, tail)
    case Obj(members) => if members.NoMembers? then "{}" + tail else MembersText("{", members, tail)
  }

  function ItemsText(before: string, items: Items, tail: string): string
    decreases items
  {
    match items
    case NoItems => "]" + tail
    case Item(head, rest) => before + Text(head, ItemsText(",", rest, tail))
  }

  function MembersText(before: string, members: Members, tail: string): string
    decreases members
  {
    match members
    case NoMembers => "}" + tail
    case Member(key, value, rest) => (before + "\"" + key + "\":") + Text(value, MembersText(",", rest, tail))
  }

  // ---------- parser ----------

  datatype Parsed<T> = Parsed(value: T, rest: string)

  function SkipSpace(s: string): (r: string)
    ensures |r| <= |s|
  {
    if s != [] && IsSpace(s[0]) then SkipSpace(s[1..]) else s
  }

  function Expect(s: string, word: string): (r: Option<string>)
    ensures r.Some? ==> |r.value| == |s| - |word|
  {
    if |s| >= |word| && s[..|word|] == word then Some(s[|word|..]) else None
  }

  function PlainRun(s: string): (n: nat)
    ensures n <= |s|
  {
    if s != [] && IsPlainChar(s[0]) then 1 + PlainRun(s[1..]) else 0
  }

  function NumberRun(s: string): (n: nat)
    ensures n <= |s|
  {
    if s != [] && IsNumberChar(s[0]) then 1 + NumberRun(s[1..]) else 0
  }

  function ParseString(s: string): (r: Option<Parsed<string>>)
    ensures r.Some? ==> |r.value.rest| < |s|
  {
    if s == [] || s[0] != '"' then None
    else
      var n := PlainRun(s[1..]);
      if 1 + n < |s| && s[1 + n] == '"' then Some(Parsed(s[1..1 + n], s[2 + n..])) else None
  }

  function ParseWord(s: string, word: string, j: Json): (r: Option<Parsed<Json>>)
    requires word != []
    ensures r.Some? ==> |r.value.rest| < |s|
  {
    match Expect(s, word)
    case None => None
    case Some(rest) => Some(Parsed(j, rest))
  }

  function ParseNumber(s: string): (r: Option<Parsed<Json>>)
    ensures r.Some? ==> |r.value.rest| < |s|
  {
    var n := NumberRun(s);
    if n > 0 && IsNumber(s[..n]) then Some(Parsed(Num(s[..n]), s[n..])) else None
  }

  function ParseValue(text: string): (r: Option<Parsed<Json>>)
    ensures r.Some? ==> |r.value.rest| < |text|
    decreases |text|, 3
  {
    ParseVisible(SkipSpace(text))
  }

  /** A value is read according to its first character. */
  function ParseVisible(s: string): (r: Option<Parsed<Json>>)
    ensures r.Some? ==> |r.value.rest| < |s|
    decreases |s|, 2
  {
    if s == [] then None
    else if s[0] == '-' || IsDigit(s[0]) then ParseNumber(s)
    else if s[0] == '"' then
      (match ParseString(s)
       case None => None
       case Some(p) => Some(Parsed(Str(p.value), p.rest)))
    else if s[0] == '[' then ParseArray(s)
    else if s[0] == '{' then ParseObject(s)
    else if s[0] == 'n' then ParseWord(s, "null", Null)
    else if s[0] == 't' then ParseWord(s, "true", Bool(true))
    else if s[0] == 'f' then ParseWord(s, "false", Bool(false))
    else None
  }

  function ParseArray(s: string): (r: Option<Parsed<Json>>)
    requires s != []
    ensures r.Some? ==> |r.value.rest| < |s|
    decreases |s|, 1
  {
    var t := SkipSpace(s[1..]);
    if t != [] && t[0] == ']' then Some(Parsed(Arr(NoItems), t[1..]))
    else match ParseItems(s[1..])
      case None => None
      case Some(p) => Some(Parsed(Arr(p.value), p.rest))
  }

  function ParseObject(s: string): (r: Option<Parsed<Json>>)
    requires s != []
    ensures r.Some? ==> |r.value.rest| < |s|
    decreases |s|, 1
  {
    var t := SkipSpace(s[1..]);
    if t != [] && t[0] == '}' then Some(Parsed(Obj(NoMembers), t[1..]))
    else match ParseMembers(s[1..])
      case None => None
      case Some(p) => Some(Parsed(Obj(p.value), p.rest))
  }

  /** Values separated by commas up to the closing bracket. */
  function ParseItems(text: string): (r: Option<Parsed<Items>>)
    ensures r.Some? ==> |r.value.rest| < |text|
    decreases |text|, 4
  {
    match ParseValue(text)
    case None => None
    case Some(p) =>
      var s := SkipSpace(p.rest);
      if s == [] then None
      else if s[0] == ']' then Some(Parsed(Item(p.value, NoItems), s[1..]))
      else if s[0] != ',' then None
      else match ParseItems(s[1..])
        case None => None
        case Some(q) => Some(Parsed(Item(p.value, q.value), q.rest))
  }

  /** The key and the colon before a member's value. */
  function ParseKey(text: string): (r: Option<Parsed<string>>)
    ensures r.Some? ==> |r.value.rest| < |text|
  {
    match ParseString(SkipSpace(text))
    case None => None
    case Some(k) =>
      match Expect(SkipSpace(k.rest), ":")
      case None => None
      case Some(rest) => Some(Parsed(k.value, rest))
  }

  function ParseMembers(text: string): (r: Option<Parsed<Members>>)
    ensures r.Some? ==> |r.value.rest| < |text|
    decreases |text|, 4
  {
    match ParseKey(text)
    case None => None
    case Some(k) =>
      match ParseValue(k.rest)
      case None => None
      case Some(p) =>
        var s := SkipSpace(p.rest);
        if s == [] then None
        else if s[0] == '}' then Some(Parsed(Member(k.value, p.value, NoMembers), s[1..]))
        else if s[0] != ',' then None
        else match ParseMembers(s[1..])
          case None => None
          case Some(q) => Some(Parsed(Member(k.value, p.value, q.value), q.rest))
  }

  /** A whole text: one value and nothing but space after it. */
  function Parse(text: string): Option<Json> {
    match ParseValue(text)
    case None => None
    case Some(p) => if SkipSpace(p.rest) == [] then Some(p.value) else None
  }

  // ---------- round trip ----------

  /** What may follow a value. */
  predicate Delimited(tail: string) { tail == [] || tail[0] == ',' || tail[0] == ']' || tail[0] == '}' }

  lemma {:induction false} PlainRunStops(s: string, tail: string)
    requires IsPlain(s)
    ensures PlainRun(s + ("\"" + tail)) == |s|
  {
    if s == [] {
      assert s + ("\"" + tail) == "\"" + tail;
    } else {
      assert (s + ("\"" + tail))[1..] == s[1..] + ("\"" + tail);
      PlainRunStops(s[1..], tail);
    }
  }

  lemma StringRoundTrip(s: string, tail: string)
    requires IsPlain(s)
    ensures ParseString(Quoted(s, tail)) == Some(Parsed(s, tail))
  {
    var q := Quoted(s, tail);
    PlainRunStops(s, tail);
    assert q[1..] == s + ("\"" + tail);
    assert q[1..1 + |s|] == s && q[2 + |s|..] == tail;
  }

  lemma {:induction false} NumberRunStops(token: string, tail: string)
    requires (forall i :: 0 <= i < |token| ==> IsNumberChar(token[i])) && Delimited(tail)
    ensures NumberRun(token + tail) == |token|
  {
    if token == [] {
      assert token + tail == tail;
    } else {
      assert (token + tail)[1..] == token[1..] + tail;
      NumberRunStops(token[1..], tail);
    }
  }

  lemma ExponentChars(s: string)
    requires IsExponent(s)
    ensures forall i :: 0 <= i < |s| ==> IsNumberChar(s[i])
  {}

  lemma FractionChars(s: string)
    requires IsFraction(s)
    ensures forall i :: 0 <= i < |s| ==> IsNumberChar(s[i])
  {
    if s != [] && s[0] == '.' {
      var n := DigitRun(s[1..]);
      ExponentChars(s[1 + n..]);
      assert forall i :: 1 <= i < 1 + n ==> s[i] == s[1..][i - 1];
      assert forall i :: 1 + n <= i < |s| ==> s[i] == s[1 + n..][i - 1 - n];
    } else {
      ExponentChars(s);
    }
  }

  lemma UnsignedChars(s: string)
    requires IsUnsigned(s)
    ensures forall i :: 0 <= i < |s| ==> IsNumberChar(s[i])
  {
    var n := DigitRun(s);
    FractionChars(s[n..]);
    forall i | 0 <= i < |s| ensures IsNumberChar(s[i]) {
      if i >= n { assert s[i] == s[n..][i - n]; }
    }
  }

  lemma NumberChars(s: string)
    requires IsNumber(s)
    ensures (forall i :: 0 <= i < |s| ==> IsNumberChar(s[i])) && (s[0] == '-' || IsDigit(s[0]))
  {
    if s[0] == '-' {
      UnsignedChars(s[1..]);
      assert forall i :: 1 <= i < |s| ==> s[i] == s[1..][i - 1];
    } else {
      UnsignedChars(s);
    }
  }

  lemma NumberRoundTrip(token: string, tail: string)
    requires IsNumber(token) && Delimited(tail)
    ensures ParseNumber(token + tail) == Some(Parsed(Num(token), tail))
  {
    NumberChars(token);
    NumberRunStops(token, tail);
    assert (token + tail)[..|token|] == token && (token + tail)[|token|..] == tail;
  }

  /** A value's text starts with something visible that is no closing bracket. */
  lemma TextStarts(j: Json, tail: string)
    requires WellFormed(j)
    ensures var t := Text(j, tail); t != [] && !IsSpace(t[0]) && t[0] != ']' && t[0] != '}'
  {
    match j
    case Num(token) => NumberChars(token);
    case Arr(items) =>
    case Obj(members) =>
    case Null =>
    case Bool(b) =>
    case Str(s) =>
  }

  lemma WordRoundTrip(word: string, j: Json, tail: string)
    requires word != []
    ensures ParseWord(word + tail, word, j) == Some(Parsed(j, tail))
  {}

  lemma NoSpace(t: string)
    requires t != [] && !IsSpace(t[0])
    ensures SkipSpace(t) == t
  {}

  lemma ReadsVisible(t: string)
    requires t != [] && !IsSpace(t[0])
    ensures ParseValue(t) == ParseVisible(t)
  {}

  lemma ReadsNumber(t: string)
    requires t != [] && (t[0] == '-' || IsDigit(t[0]))
    ensures ParseVisible(t) == ParseNumber(t)
  {}

  lemma WordsRoundTrip(j: Json, tail: string)
    requires j.Null? || j.Bool?
    ensures ParseValue(Text(j, tail)) == Some(Parsed(j, tail))
  {
    var word := if j.Null? then "null" else if j.b then "true" else "false";
    WordRoundTrip(word, j, tail);
    assert Text(j, tail) == word + tail && SkipSpace(word + tail) == word + tail;
  }

  lemma QuotedRoundTrip(s: string, tail: string)
    requires IsPlain(s)
    ensures ParseValue(Text(Str(s), tail)) == Some(Parsed(Str(s), tail))
  {
    var t := Quoted(s, tail);
    StringRoundTrip(s, tail);
    assert t[0] == '"' && SkipSpace(t) == t;
  }

  lemma ArrayStart(items: Items, tail: string)
    ensures Text(Arr(items), tail) != [] && Text(Arr(items), tail)[0] == '['
  {}

  lemma ObjectStart(members: Members, tail: string)
    ensures Text(Obj(members), tail) != [] && Text(Obj(members), tail)[0] == '{'
  {}

  /** What is written is read back, whatever follows. */
  lemma {:induction false} ValueRoundTrip(j: Json, tail: string)
    requires WellFormed(j) && Delimited(tail)
    ensures ParseValue(Text(j, tail)) == Some(Parsed(j, tail))
    decreases j
  {
    match j
    case Null => WordsRoundTrip(j, tail);
    case Bool(_) => WordsRoundTrip(j, tail);
    case Num(token) =>
      NumberChars(token);
      ReadsVisible(token + tail);
      ReadsNumber(token + tail);
      NumberRoundTrip(token, tail);
    case Str(s) => QuotedRoundTrip(s, tail);
    case Arr(items) =>
      ArrayStart(items, tail);
      ReadsVisible(Text(j, tail));
      ArrayRoundTrip(items, tail);
    case Obj(members) =>
      ObjectStart(members, tail);
      ReadsVisible(Text(j, tail));
      ObjectRoundTrip(members, tail);
  }

  lemma {:induction false} ArrayRoundTrip(items: Items, tail: string)
    requires ItemsWellFormed(items) && Delimited(tail)
    ensures Text(Arr(items), tail) != [] && ParseArray(Text(Arr(items), tail)) == Some(Parsed(Arr(items), tail))
    decreases items, 1
  {
    var t := Text(Arr(items), tail);
    if items.NoItems? {
      assert t[1..] == "]" + tail && t[1..][1..] == tail;
    } else {
      var inner := Text(items.head, ItemsText(",", items.tail, tail));
      ItemsRoundTrip("[", items, tail);
      TextStarts(items.head, ItemsText(",", items.tail, tail));
      assert t == "[" + inner && t[1..] == inner;
    }
  }

  lemma MembersStart(members: Members, tail: string)
    requires members.Member?
    ensures var t := MembersText("{", members, tail); t != [] && t[0] == '{' && t[1..] != [] && t[1..][0] == '"'
  {}

  lemma {:induction false} ObjectRoundTrip(members: Members, tail: string)
    requires MembersWellFormed(members) && Delimited(tail)
    ensures Text(Obj(members), tail) != [] && ParseObject(Text(Obj(members), tail)) == Some(Parsed(Obj(members), tail))
    decreases members, 1
  {
    var t := Text(Obj(members), tail);
    if members.NoMembers? {
      assert t[1..] == "}" + tail && t[1..][1..] == tail;
    } else {
      MembersRoundTrip("{", members, tail);
      MembersStart(members, tail);
      assert SkipSpace(t[1..]) == t[1..];
    }
  }

  lemma LastItem(text: string, value: Json, rest: string)
    requires ParseValue(text) == Some(Parsed(value, rest)) && rest != [] && rest[0] == ']'
    ensures ParseItems(text) == Some(Parsed(Item(value, NoItems), rest[1..]))
  {
    NoSpace(rest);
  }

  lemma OneMoreItem(text: string, value: Json, rest: string, more: Items, tail: string)
    requires ParseValue(text) == Some(Parsed(value, rest)) && rest != [] && rest[0] == ','
    requires ParseItems(rest[1..]) == Some(Parsed(more, tail))
    ensures ParseItems(text) == Some(Parsed(Item(value, more), tail))
  {
    NoSpace(rest);
  }

  lemma {:induction false} ItemsRoundTrip(before: string, items: Items, tail: string)
    requires ItemsWellFormed(items) && Delimited(tail) && items.Item? && |before| == 1
    ensures ParseItems(ItemsText(before, items, tail)[1..]) == Some(Parsed(items, tail))
    decreases items, 0
  {
    var rest := ItemsText(",", items.tail, tail);
    var text := Text(items.head, rest);
    assert ItemsText(before, items, tail)[1..] == text;
    ValueRoundTrip(items.head, rest);
    if items.tail.Item? {
      ItemsRoundTrip(",", items.tail, tail);
      OneMoreItem(text, items.head, rest, items.tail, tail);
    } else {
      LastItem(text, items.head, rest);
      assert rest[1..] == tail;
    }
  }

  lemma KeyRoundTrip(before: string, key: string, tail: string)
    requires IsPlain(key) && |before| == 1
    ensures ParseKey(((before + "\"" + key + "\":") + tail)[1..]) == Some(Parsed(key, tail))
  {
    var t := ((before + "\"" + key + "\":") + tail)[1..];
    assert t == Quoted(key, ":" + tail);
    StringRoundTrip(key, ":" + tail);
    assert SkipSpace(t) == t && SkipSpace(":" + tail) == ":" + tail;
  }

  lemma LastMember(text: string, key: string, value: Json, valueText: string, rest: string)
    requires ParseKey(text) == Some(Parsed(key, valueText)) && ParseValue(valueText) == Some(Parsed(value, rest))
    requires rest != [] && rest[0] == '}'
    ensures ParseMembers(text) == Some(Parsed(Member(key, value, NoMembers), rest[1..]))
  {
    NoSpace(rest);
  }

  lemma OneMoreMember(text: string, key: string, value: Json, valueText: string, rest: string, more: Members,
                      tail: string)
    requires ParseKey(text) == Some(Parsed(key, valueText)) && ParseValue(valueText) == Some(Parsed(value, rest))
    requires rest != [] && rest[0] == ',' && ParseMembers(rest[1..]) == Some(Parsed(more, tail))
    ensures ParseMembers(text) == Some(Parsed(Member(key, value, more), tail))
  {
    NoSpace(rest);
  }

  lemma {:induction false} MembersRoundTrip(before: string, members: Members, tail: string)
    requires MembersWellFormed(members) && Delimited(tail) && members.Member? && |before| == 1
    ensures ParseMembers(MembersText(before, members, tail)[1..]) == Some(Parsed(members, tail))
    decreases members, 0
  {
    var rest := MembersText(",", members.rest, tail);
    var text, valueText := MembersText(before, members, tail)[1..], Text(members.value, rest);
    KeyRoundTrip(before, members.key, valueText);
    ValueRoundTrip(members.value, rest);
    if members.rest.Member? {
      MembersRoundTrip(",", members.rest, tail);
      OneMoreMember(text, members.key, members.value, valueText, rest, members.rest, tail);
    } else {
      LastMember(text, members.key, members.value, valueText, rest);
      assert rest[1..] == tail;
    }
  }

  /** Parsing inverts writing. */
  lemma RoundTrip(j: Json)
    requires WellFormed(j)
    ensures Parse(Text(j, "")) == Some(j)
  {
    ValueRoundTrip(j, "");
  }

  /** Different values have different texts. */
  lemma TextIsUnambiguous(j: Json, k: Json)
    requires WellFormed(j) && WellFormed(k) && Text(j, "") == Text(k, "")
    ensures j == k
  {
    RoundTrip(j);
    RoundTrip(k);
  }

  // ---------- plain text, size and depth ----------

  function Plain(j: Json): string { Text(j, "") }

  lemma Join(a: string, b: string, c: string)
    ensures a + (b + c) == (a + b) + c
  {}

  /** Writing in front of something is writing and appending. */
  lemma {:induction false} TextAppends(j: Json, tail: string)
    ensures Text(j, tail) == Plain(j) + tail
    decreases j
  {
    assert "" + tail == tail;
    match j
    case Arr(items) => if items.Item? { ItemsAppend("[", items, "", tail); }
    case Obj(members) => if members.Member? { MembersAppend("{", members, "", tail); }
    case Str(s) =>
      Join("\"", s + ("\"" + ""), tail);
      Join(s, "\"" + "", tail);
    case Null =>
    case Bool(_) =>
    case Num(_) =>
  }

  lemma {:induction false} ItemsAppend(before: string, items: Items, middle: string, tail: string)
    ensures ItemsText(before, items, middle + tail) == ItemsText(before, items, middle) + tail
    decreases items
  {
    match items
    case NoItems => Join("]", middle, tail);
    case Item(head, rest) =>
      var inner := ItemsText(",", rest, middle);
      ItemsAppend(",", rest, middle, tail);
      TextAppends(head, inner);
      TextAppends(head, inner + tail);
      Join(Plain(head), inner, tail);
      Join(before, Text(head, inner), tail);
  }

  lemma {:induction false} MembersAppend(before: string, members: Members, middle: string, tail: string)
    ensures MembersText(before, members, middle + tail) == MembersText(before, members, middle) + tail
    decreases members
  {
    match members
    case NoMembers => Join("}", middle, tail);
    case Member(key, value, rest) =>
      var inner := MembersText(",", rest, middle);
      MembersAppend(",", rest, middle, tail);
      TextAppends(value, inner);
      TextAppends(value, inner + tail);
      Join(Plain(value), inner, tail);
      Join(before + "\"" + key + "\":", Text(value, inner), tail);
  }

  function Size(j: Json): nat { |Plain(j)| }

  function ItemsSize(items: Items): nat {
    match items
    case NoItems => 1
    case Item(head, rest) => 1 + Size(head) + ItemsSize(rest)
  }

  function MembersSize(members: Members): nat {
    match members
    case NoMembers => 1
    case Member(key, value, rest) => 4 + |key| + Size(value) + MembersSize(rest)
  }

  lemma {:induction false} ItemsLength(before: string, items: Items)
    requires |before| == 1
    ensures |ItemsText(before, items, "")| == ItemsSize(items)
    decreases items
  {
    if items.Item? {
      ItemsLength(",", items.tail);
      TextAppends(items.head, ItemsText(",", items.tail, ""));
    }
  }

  lemma {:induction false} MembersLength(before: string, members: Members)
    requires |before| == 1
    ensures |MembersText(before, members, "")| == MembersSize(members)
    decreases members
  {
    if members.Member? {
      MembersLength(",", members.rest);
      TextAppends(members.value, MembersText(",", members.rest, ""));
    }
  }

  /** Containers around a value, itself included. */
  function Depth(j: Json): nat {
    match j
    case Arr(items) => 1 + ItemsDepth(items)
    case Obj(members) => 1 + MembersDepth(members)
    case Null => 0
    case Bool(_) => 0
    case Num(_) => 0
    case Str(_) => 0
  }

  function Deeper(d: nat, e: nat): nat { if d < e then e else d }

  function ItemsDepth(items: Items): nat {
    match items
    case NoItems => 0
    case Item(head, rest) => Deeper(Depth(head), ItemsDepth(rest))
  }

  function MembersDepth(members: Members): nat {
    match members
    case NoMembers => 0
    case Member(_, value, rest) => Deeper(Depth(value), MembersDepth(rest))
  }

  predicate InItems(j: Json, items: Items) { items.Item? && (items.head == j || InItems(j, items.tail)) }

  predicate InMembers(j: Json, members: Members) {
    members.Member? && (members.value == j || InMembers(j, members.rest))
  }

  /** A list is as deep as its deepest item. */
  lemma {:induction false} ItemsDepthIsLargest(items: Items, j: Json)
    ensures InItems(j, items) ==> Depth(j) <= ItemsDepth(items)
    ensures items.Item? ==> exists deepest :: InItems(deepest, items) && Depth(deepest) == ItemsDepth(items)
  {
    if items.Item? {
      ItemsDepthIsLargest(items.tail, j);
      assert InItems(items.head, items);
      if items.tail.Item? {
        var deepest :| InItems(deepest, items.tail) && Depth(deepest) == ItemsDepth(items.tail);
        assert InItems(deepest, items)
               && InItems(if Depth(deepest) > Depth(items.head) then deepest else items.head, items);
      } else {
        assert Depth(items.head) == ItemsDepth(items);
      }
    }
  }

  lemma {:induction false} MembersDepthIsLargest(members: Members, j: Json)
    ensures InMembers(j, members) ==> Depth(j) <= MembersDepth(members)
    ensures members.Member? ==> exists deepest :: InMembers(deepest, members) && Depth(deepest) == MembersDepth(members)
  {
    if members.Member? {
      MembersDepthIsLargest(members.rest, j);
      assert InMembers(members.value, members);
      if members.rest.Member? {
        var deepest :| InMembers(deepest, members.rest) && Depth(deepest) == MembersDepth(members.rest);
        assert InMembers(deepest, members)
               && InMembers(if Depth(deepest) > Depth(members.value) then deepest else members.value, members);
      } else {
        assert Depth(members.value) == MembersDepth(members);
      }
    }
  }
}
