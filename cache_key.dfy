/**
 * The cache key of a search (jobApi.ts, `getCacheKey`): `JSON.stringify` of the
 * filter object, with no normalisation. Properties holding `undefined` are
 * skipped, the others are written in the object's own order. The key is proved
 * to determine the defined properties exactly, order included, by reading them
 * back from it: two filters share a cache entry iff their defined properties
 * agree, in the same order.
 */
module CacheKey {
  import opened Wrappers
  import Text
  import opened FilterObject
  import SeqFacts

  /** The property name of each filter field, as declared in `JobFilter`. */
  function FieldName(k: Field): string {
    match k
    case Keyword => "keyword"
    case Location => "location"
    case Salary => "salary"
    case ExperienceLevel => "experienceLevel"
    case JobType => "jobType"
    case Remote => "remote"
    case Industry => "industry"
    case CompanySize => "companySize"
    case PostedWithin => "postedWithin"
    case SortBy => "sortBy"
    case Page => "page"
    case Limit => "limit"
  }

  function FieldNamed(name: string): (r: Option<Field>)
    ensures r.Some? ==> FieldName(r.value) == name
  {
    if name == "keyword" then Some(Keyword)
    else if name == "location" then Some(Location)
    else if name == "salary" then Some(Salary)
    else if name == "experienceLevel" then Some(ExperienceLevel)
    else if name == "jobType" then Some(JobType)
    else if name == "remote" then Some(Remote)
    else if name == "industry" then Some(Industry)
    else if name == "companySize" then Some(CompanySize)
    else if name == "postedWithin" then Some(PostedWithin)
    else if name == "sortBy" then Some(SortBy)
    else if name == "page" then Some(Page)
    else if name == "limit" then Some(Limit)
    else None
  }

  lemma FieldNamedInverse(k: Field)
    ensures FieldNamed(FieldName(k)) == Some(k)
  {
  }

  function HexDigit(d: int): char
    requires 0 <= d < 16
  {
    "0123456789abcdef"[d]
  }

  function HexValue(c: char): Option<int> {
    if '0' <= c <= '9' then Some(c as int - '0' as int)
    else if 'a' <= c <= 'f' then Some(c as int - 'a' as int + 10)
    else if 'A' <= c <= 'F' then Some(c as int - 'A' as int + 10)
    else None
  }

  /** How `JSON.stringify` writes one character inside a string literal. */
  function EscapeChar(c: char): string {
    if c == '"' then "\\\""
    else if c == '\\' then "\\\\"
    else if c == '\U{0008}' then "\\b"
    else if c == '\t' then "\\t"
    else if c == '\n' then "\\n"
    else if c == '\U{000C}' then "\\f"
    else if c == '\r' then "\\r"
    else if c < ' ' then "\\u00" + [HexDigit(c as int / 16), HexDigit(c as int % 16)]
    else [c]
  }

  function Escape(s: string): string {
    if s == [] then [] else EscapeChar(s[0]) + Escape(s[1..])
  }

  function Quote(s: string): string {
    "\"" + Escape(s) + "\""
  }

  /** One property of the salary object, `"min":n` or `"max":n`. */
  function BoundText(b: SalaryBound): string {
    (if b.bound == Min then "\"min\":" else "\"max\":") + Text.IntToString(b.n)
  }

  /** The JSON text of a defined property value; a salary object lists its keys in the order they were set. */
  function ValueText(v: Value): string
    requires v != Undefined
  {
    match v
    case Str(s) => Quote(s)
    case Num(n) => Text.IntToString(n)
    case Bool(b) => if b then "true" else "false"
    case Range(first, second) =>
      "{" + BoundText(first) + (if second.Some? then "," + BoundText(second.value) else "") + "}"
  }

  predicate AllDefined(f: JobFilter) {
    forall i :: 0 <= i < |f| ==> f[i].value != Undefined
  }

  /** The properties `JSON.stringify` writes: those not holding `undefined`, in order. */
  function Defined(f: JobFilter): (r: JobFilter)
    ensures AllDefined(r)
  {
    if f == [] then []
    else if f[0].value == Undefined then Defined(f[1..])
    else [f[0]] + Defined(f[1..])
  }

  function MemberText(p: Prop): string
    requires p.value != Undefined
  {
    Quote(FieldName(p.field)) + ":" + ValueText(p.value)
  }

  /** The members joined by commas. */
  function Members(ps: JobFilter): string
    requires AllDefined(ps)
  {
    if ps == [] then ""
    else if |ps| == 1 then MemberText(ps[0])
    else MemberText(ps[0]) + "," + Members(ps[1..])
  }

  /** `getCacheKey(filters)`, that is `JSON.stringify(filters)`. */
  function GetCacheKey(f: JobFilter): string {
    "{" + Members(Defined(f)) + "}"
  }

  // ---------------------------------------------------------------------
  // Reading a key back. Each reader takes the text in front of it and
  // returns what it read and the text after it.

  /** The character after a backslash, and how many characters the escape took. */
  function Unescape(s: string): (r: Option<(char, nat)>)
    ensures r.Some? ==> 1 <= r.value.1 <= |s|
  {
    if s == [] then None
    else if s[0] == '"' then Some(('"', 1))
    else if s[0] == '\\' then Some(('\\', 1))
    else if s[0] == '/' then Some(('/', 1))
    else if s[0] == 'b' then Some(('\U{0008}', 1))
    else if s[0] == 't' then Some(('\t', 1))
    else if s[0] == 'n' then Some(('\n', 1))
    else if s[0] == 'f' then Some(('\U{000C}', 1))
    else if s[0] == 'r' then Some(('\r', 1))
    else if s[0] == 'u' && |s| >= 5 then
      match (HexValue(s[1]), HexValue(s[2]), HexValue(s[3]), HexValue(s[4]))
      case (Some(a), Some(b), Some(c), Some(d)) =>
        var code := ((a * 16 + b) * 16 + c) * 16 + d;
        if 0 <= code < 0xD800 || 0xE000 <= code < 0x1_0000 then Some((code as char, 5)) else None
      case _ => None
    else None
  }

  /** The characters of a string literal up to its closing quote. */
  function ParseChars(s: string): (r: Option<(string, string)>)
    ensures r.Some? ==> |r.value.1| < |s|
    decreases |s|
  {
    if s == [] then None
    else if s[0] == '"' then Some(([], s[1..]))
    else if s[0] == '\\' then
      match Unescape(s[1..])
      case None => None
      case Some((c, n)) =>
        match ParseChars(s[1 + n..])
        case None => None
        case Some((t, rest)) => Some(([c] + t, rest))
    else if s[0] < ' ' then None
    else
      match ParseChars(s[1..])
      case None => None
      case Some((t, rest)) => Some(([s[0]] + t, rest))
  }

  predicate AllDigits(d: string) {
    forall i :: 0 <= i < |d| ==> Text.IsDigit(d[i])
  }

  /** The length of the run of digits at the front of `s`. */
  function LeadingDigits(s: string): (k: nat)
    ensures k <= |s| && AllDigits(s[..k]) && (k == |s| || !Text.IsDigit(s[k]))
  {
    if s != [] && Text.IsDigit(s[0]) then
      var k := 1 + LeadingDigits(s[1..]);
      assert forall i :: 1 <= i < k ==> s[..k][i] == s[1..][..k - 1][i - 1];
      k
    else 0
  }

  function DigitsValue(d: string): nat
    requires AllDigits(d)
  {
    if d == [] then 0 else DigitsValue(d[..|d| - 1]) * 10 + (d[|d| - 1] as int - '0' as int)
  }

  function ParseInt(s: string): (r: Option<(int, string)>)
    ensures r.Some? ==> |r.value.1| < |s|
  {
    if s != [] && s[0] == '-' then
      var k := LeadingDigits(s[1..]);
      if k == 0 then None
      else
        var n: int := 0 - DigitsValue(s[1..][..k]) as int;
        Some((n, s[1..][k..]))
    else
      var k := LeadingDigits(s);
      if k == 0 then None
      else
        var n: int := DigitsValue(s[..k]);
        Some((n, s[k..]))
  }

  /** Expect the literal `lit` at the front of `s`. */
  function Expect(lit: string, s: string): (r: Option<string>)
    ensures r.Some? ==> |r.value| == |s| - |lit|
  {
    if lit <= s then Some(s[|lit|..]) else None
  }

  function ParseBoundNumber(b: Bound, s: string): (r: Option<(SalaryBound, string)>)
    ensures r.Some? ==> |r.value.1| < |s|
  {
    match ParseInt(s)
    case None => None
    case Some((n, rest)) => Some((SalaryBound(b, n), rest))
  }

  /** One property of the salary object: `"min":` or `"max":` and an integer. */
  function ParseBound(s: string): (r: Option<(SalaryBound, string)>)
    ensures r.Some? ==> |r.value.1| < |s|
  {
    match Expect("\"min\":", s)
    case Some(s1) => ParseBoundNumber(Min, s1)
    case None =>
      match Expect("\"max\":", s)
      case Some(s1) => ParseBoundNumber(Max, s1)
      case None => None
  }

  /** The salary object: a brace, one or two bounds separated by a comma, a brace. */
  function ParseRange(s: string): (r: Option<(Value, string)>)
    ensures r.Some? ==> |r.value.1| < |s|
  {
    match Expect("{", s)
    case None => None
    case Some(s1) =>
      match ParseBound(s1)
      case None => None
      case Some((first, s2)) =>
        if s2 != [] && s2[0] == ',' then
          match ParseBound(s2[1..])
          case None => None
          case Some((second, s3)) =>
            match Expect("}", s3)
            case None => None
            case Some(s4) => Some((Range(first, Some(second)), s4))
        else
          match Expect("}", s2)
          case None => None
          case Some(s3) => Some((Range(first, None), s3))
  }

  function ParseValue(s: string): (r: Option<(Value, string)>)
    ensures r.Some? ==> |r.value.1| < |s|
  {
    if s == [] then None
    else if s[0] == '"' then
      match ParseChars(s[1..])
      case None => None
      case Some((t, rest)) => Some((Str(t), rest))
    else if "true" <= s then Some((Bool(true), s[4..]))
    else if "false" <= s then Some((Bool(false), s[5..]))
    else if s[0] == '{' then ParseRange(s)
    else
      match ParseInt(s)
      case None => None
      case Some((n, rest)) => Some((Num(n), rest))
  }

  function ParseMember(s: string): (r: Option<(Prop, string)>)
    ensures r.Some? ==> |r.value.1| < |s|
  {
    if s == [] || s[0] != '"' then None
    else
      match ParseChars(s[1..])
      case None => None
      case Some((name, s1)) =>
        match FieldNamed(name)
        case None => None
        case Some(k) =>
          if s1 == [] || s1[0] != ':' then None
          else
            match ParseValue(s1[1..])
            case None => None
            case Some((v, s2)) => Some((Prop(k, v), s2))
  }

  /** Members separated by commas, up to and including the closing brace. */
  function ParseMemberList(s: string): (r: Option<(JobFilter, string)>)
    decreases |s|
  {
    match ParseMember(s)
    case None => None
    case Some((p, s1)) =>
      if s1 != [] && s1[0] == '}' then Some(([p], s1[1..]))
      else if s1 != [] && s1[0] == ',' then
        match ParseMemberList(s1[1..])
        case None => None
        case Some((ps, rest)) => Some(([p] + ps, rest))
      else None
  }

  /** Read a whole key back into the properties it was written from. */
  function ParseKey(s: string): Option<JobFilter> {
    if "{}" == s then Some([])
    else if s == [] || s[0] != '{' then None
    else
      match ParseMemberList(s[1..])
      case Some((ps, rest)) => if rest == [] then Some(ps) else None
      case None => None
  }

  // ---------------------------------------------------------------------
  // Round trips.

  /** One parsing step over a backslash escape that decodes to `c` and takes `n` characters. */
  lemma ParseCharsEscapeStep(s: string, c: char, n: nat, tail: string)
    requires s != [] && s[0] == '\\' && Unescape(s[1..]) == Some((c, n)) && s[1 + n..] == tail
    ensures ParseChars(s) ==
      match ParseChars(tail)
      case None => None
      case Some((t, rest)) => Some(([c] + t, rest))
  {
  }

  /** One parsing step over a plain character. */
  lemma ParseCharsPlainStep(s: string, tail: string)
    requires s != [] && s[0] != '"' && s[0] != '\\' && s[0] >= ' ' && s[1..] == tail
    ensures ParseChars(s) ==
      match ParseChars(tail)
      case None => None
      case Some((t, rest)) => Some(([s[0]] + t, rest))
  {
  }

  /** A control character without a short escape is read back from its `\u00XX` form. */
  lemma UnescapeControl(c: char, u: string)
    requires c < ' ' && u == ['u', '0', '0', HexDigit(c as int / 16), HexDigit(c as int % 16)]
    ensures Unescape(u) == Some((c, 5))
  {
    var hi, lo := c as int / 16, c as int % 16;
    assert hi == 0 || hi == 1;
    assert HexValue(HexDigit(hi)) == Some(hi);
    assert HexValue(HexDigit(lo)) == Some(lo);
  }

  /** The characters with a two-character escape. */
  predicate ShortEscaped(c: char) {
    c == '"' || c == '\\' || c == '\U{0008}' || c == '\t' || c == '\n' || c == '\U{000C}' || c == '\r'
  }

  /** An escape is decoded from its own characters; what follows does not matter. */
  lemma UnescapePrefix(u: string, tail: string)
    requires Unescape(u).Some?
    ensures Unescape(u + tail) == Unescape(u)
  {
    var w := u + tail;
    assert w[0] == u[0];
    if u[0] == 'u' {
      assert w[1] == u[1] && w[2] == u[2] && w[3] == u[3] && w[4] == u[4];
    }
  }

  /** Reading past any escape `e` that decodes to `c` using all of `e`. */
  lemma ParseEscapeText(e: string, c: char, tail: string)
    requires |e| >= 2 && e[0] == '\\' && Unescape(e[1..]) == Some((c, |e| - 1))
    ensures ParseChars(e + tail) ==
      match ParseChars(tail)
      case None => None
      case Some((t, rest)) => Some(([c] + t, rest))
  {
    var s := e + tail;
    assert s[0] == '\\' && s[1..] == e[1..] + tail && s[|e|..] == tail;
    UnescapePrefix(e[1..], tail);
    ParseCharsEscapeStep(s, c, |e| - 1, tail);
  }

  lemma ParseShortEscape(c: char, tail: string)
    requires ShortEscaped(c)
    ensures ParseChars(EscapeChar(c) + tail) ==
      match ParseChars(tail)
      case None => None
      case Some((t, rest)) => Some(([c] + t, rest))
  {
    var e := EscapeChar(c);
    assert |e| == 2 && e[0] == '\\' && Unescape(e[1..]) == Some((c, 1));
    ParseEscapeText(e, c, tail);
  }

  lemma ParseControlEscape(c: char, tail: string)
    requires c < ' ' && !ShortEscaped(c)
    ensures ParseChars(EscapeChar(c) + tail) ==
      match ParseChars(tail)
      case None => None
      case Some((t, rest)) => Some(([c] + t, rest))
  {
    var e := EscapeChar(c);
    var u := ['u', '0', '0', HexDigit(c as int / 16), HexDigit(c as int % 16)];
    assert e == ['\\'] + u && e[1..] == u;
    UnescapeControl(c, u);
    ParseEscapeText(e, c, tail);
  }

  lemma ParseEscapedChar(c: char, tail: string)
    ensures ParseChars(EscapeChar(c) + tail) ==
      match ParseChars(tail)
      case None => None
      case Some((t, rest)) => Some(([c] + t, rest))
  {
    if ShortEscaped(c) {
      ParseShortEscape(c, tail);
    } else if c < ' ' {
      ParseControlEscape(c, tail);
    } else {
      var s := EscapeChar(c) + tail;
      assert s[0] == c && s[1..] == tail;
      ParseCharsPlainStep(s, tail);
    }
  }

  lemma {:induction false} ParseCharsEscape(s: string, rest: string)
    ensures ParseChars(Escape(s) + "\"" + rest) == Some((s, rest))
  {
    if s == [] {
      assert Escape(s) + "\"" + rest == "\"" + rest;
    } else {
      assert Escape(s) + "\"" + rest == EscapeChar(s[0]) + (Escape(s[1..]) + "\"" + rest);
      ParseCharsEscape(s[1..], rest);
      ParseEscapedChar(s[0], Escape(s[1..]) + "\"" + rest);
      assert [s[0]] + s[1..] == s;
    }
  }

  lemma {:induction false} DigitsOfNat(n: nat)
    ensures AllDigits(Text.NatToString(n)) && DigitsValue(Text.NatToString(n)) == n
  {
    var d := Text.NatToString(n);
    if n >= 10 {
      DigitsOfNat(n / 10);
      assert d[..|d| - 1] == Text.NatToString(n / 10);
    }
  }

  lemma {:induction false} LeadingDigitsConcat(d: string, rest: string)
    requires AllDigits(d)
    requires rest == [] || !Text.IsDigit(rest[0])
    ensures LeadingDigits(d + rest) == |d|
  {
    if d == [] {
      assert d + rest == rest;
    } else {
      assert (d + rest)[0] == d[0] && (d + rest)[1..] == d[1..] + rest;
      LeadingDigitsConcat(d[1..], rest);
    }
  }

  lemma ParseIntText(n: int, rest: string)
    requires rest == [] || !Text.IsDigit(rest[0])
    ensures ParseInt(Text.IntToString(n) + rest) == Some((n, rest))
  {
    var m: nat := if n < 0 then -n else n;
    var d := Text.NatToString(m);
    DigitsOfNat(m);
    LeadingDigitsConcat(d, rest);
    assert (d + rest)[..|d|] == d && (d + rest)[|d|..] == rest;
    if n < 0 {
      var s := Text.IntToString(n) + rest;
      assert s == "-" + (d + rest) && s[1..] == d + rest;
    } else {
      assert Text.IsDigit(d[0]);
    }
  }

  /** What may follow a value inside the key: a comma or a closing brace. */
  predicate Follows(tail: string) {
    tail != [] && (tail[0] == ',' || tail[0] == '}')
  }

  lemma ParseStrText(t: string, tail: string)
    ensures ParseValue(ValueText(Str(t)) + tail) == Some((Str(t), tail))
  {
    var s := ValueText(Str(t)) + tail;
    assert s == "\"" + (Escape(t) + "\"" + tail);
    assert s[1..] == Escape(t) + "\"" + tail;
    ParseCharsEscape(t, tail);
  }

  lemma ParseNumText(n: int, tail: string)
    requires Follows(tail)
    ensures ParseValue(ValueText(Num(n)) + tail) == Some((Num(n), tail))
  {
    var d := Text.IntToString(n);
    var s := d + tail;
    ParseIntText(n, tail);
    assert s[0] == d[0];
    assert d[0] == '-' || Text.IsDigit(d[0]);
    assert !("true" <= s) && !("false" <= s);
  }

  lemma ParseBoolText(b: bool, tail: string)
    ensures ParseValue(ValueText(Bool(b)) + tail) == Some((Bool(b), tail))
  {
    var s := ValueText(Bool(b)) + tail;
    if b {
      assert "true" <= s && s[4..] == tail;
    } else {
      assert s[0] == 'f';
      assert "false" <= s && s[5..] == tail;
    }
  }

  lemma ExpectLiteral(lit: string, rest: string)
    ensures Expect(lit, lit + rest) == Some(rest)
  {
    assert lit <= lit + rest;
  }

  /** The text after `"max":` does not start with `"min":`. */
  lemma MaxIsNotMin(rest: string)
    ensures Expect("\"min\":", "\"max\":" + rest) == None
  {
    var s := "\"max\":" + rest;
    assert s[2] == 'a';
  }

  lemma ParseBoundText(b: SalaryBound, tail: string)
    requires tail == [] || !Text.IsDigit(tail[0])
    ensures ParseBound(BoundText(b) + tail) == Some((b, tail))
  {
    var d := Text.IntToString(b.n) + tail;
    ParseIntText(b.n, tail);
    assert ParseBoundNumber(b.bound, d) == Some((b, tail));
    var name := if b.bound == Min then "\"min\":" else "\"max\":";
    assert BoundText(b) + tail == name + d;
    if b.bound == Min {
      ExpectLiteral("\"min\":", d);
    } else {
      MaxIsNotMin(d);
      ExpectLiteral("\"max\":", d);
    }
  }

  /** The steps of reading a salary object with one key. */
  lemma ParseRangeOneSteps(s: string, s1: string, first: SalaryBound, s2: string, s3: string)
    requires Expect("{", s) == Some(s1) && ParseBound(s1) == Some((first, s2))
    requires s2 != [] && s2[0] == '}' && Expect("}", s2) == Some(s3)
    ensures ParseRange(s) == Some((Range(first, None), s3))
  {
  }

  /** The steps of reading a salary object with two keys. */
  lemma ParseRangeTwoSteps(s: string, s1: string, first: SalaryBound, s2: string,
                           second: SalaryBound, s3: string, s4: string)
    requires Expect("{", s) == Some(s1) && ParseBound(s1) == Some((first, s2))
    requires s2 != [] && s2[0] == ',' && ParseBound(s2[1..]) == Some((second, s3))
    requires Expect("}", s3) == Some(s4)
    ensures ParseRange(s) == Some((Range(first, Some(second)), s4))
  {
  }

  lemma ParseRangeOneText(first: SalaryBound, tail: string)
    ensures ParseRange("{" + (BoundText(first) + ("}" + tail))) == Some((Range(first, None), tail))
  {
    var close := "}" + tail;
    var s1 := BoundText(first) + close;
    ExpectLiteral("}", tail);
    ExpectLiteral("{", s1);
    ParseBoundText(first, close);
    ParseRangeOneSteps("{" + s1, s1, first, close, tail);
  }

  lemma ParseRangeTwoText(first: SalaryBound, second: SalaryBound, tail: string)
    ensures ParseRange("{" + (BoundText(first) + ([','] + (BoundText(second) + ("}" + tail)))))
         == Some((Range(first, Some(second)), tail))
  {
    var close := "}" + tail;
    var s3 := BoundText(second) + close;
    var afterFirst := [','] + s3;
    var s1 := BoundText(first) + afterFirst;
    ExpectLiteral("}", tail);
    ExpectLiteral("{", s1);
    ParseBoundText(first, afterFirst);
    assert afterFirst[1..] == s3;
    ParseBoundText(second, close);
    ParseRangeTwoSteps("{" + s1, s1, first, afterFirst, second, close, tail);
  }

  /** The salary object's text, with the concatenations grouped as the readers of its parts expect. */
  lemma RangeTextShape(first: SalaryBound, second: Option<SalaryBound>, tail: string)
    ensures ValueText(Range(first, second)) + tail
         == if second.Some? then "{" + (BoundText(first) + ([','] + (BoundText(second.value) + ("}" + tail))))
            else "{" + (BoundText(first) + ("}" + tail))
  {
  }

  lemma ParseRangeText(first: SalaryBound, second: Option<SalaryBound>, tail: string)
    ensures ParseRange(ValueText(Range(first, second)) + tail) == Some((Range(first, second), tail))
  {
    RangeTextShape(first, second, tail);
    if second.Some? {
      ParseRangeTwoText(first, second.value, tail);
    } else {
      ParseRangeOneText(first, tail);
    }
  }

  lemma ParseValueText(v: Value, tail: string)
    requires v != Undefined && Follows(tail)
    ensures ParseValue(ValueText(v) + tail) == Some((v, tail))
  {
    match v
    case Str(t) => ParseStrText(t, tail);
    case Num(n) => ParseNumText(n, tail);
    case Bool(b) => ParseBoolText(b, tail);
    case Range(first, second) =>
      ParseRangeText(first, second, tail);
      var s := ValueText(v) + tail;
      assert s[0] == '{' && !("true" <= s) && !("false" <= s);
  }

  /** The steps of reading one member: a quoted known name, a colon, a value. */
  lemma ParseMemberSteps(s: string, name: string, k: Field, s1: string, v: Value, s2: string)
    requires s != [] && s[0] == '"' && ParseChars(s[1..]) == Some((name, s1))
    requires FieldNamed(name) == Some(k)
    requires s1 != [] && s1[0] == ':' && ParseValue(s1[1..]) == Some((v, s2))
    ensures ParseMember(s) == Some((Prop(k, v), s2))
  {
  }

  /** A quoted string starts with a quote, and the escaped text and closing quote follow it. */
  lemma QuoteFront(name: string, after: string)
    ensures (Quote(name) + after)[0] == '"'
    ensures (Quote(name) + after)[1..] == Escape(name) + "\"" + after
  {
    var e := Escape(name);
    assert Quote(name) + after == ['"'] + (e + "\"" + after);
  }

  /** A quoted string is read back, and the reading stops right after its closing quote. */
  lemma ParseQuoted(name: string, after: string)
    ensures var s := Quote(name) + after;
            s != [] && s[0] == '"' && ParseChars(s[1..]) == Some((name, after))
  {
    QuoteFront(name, after);
    ParseCharsEscape(name, after);
  }

  /** A member is read from a quoted known name, a colon, and any text from which the value is read. */
  lemma ParseMemberParts(name: string, k: Field, a: string, v: Value, tail: string)
    requires FieldNamed(name) == Some(k)
    requires ParseValue(a + tail) == Some((v, tail))
    ensures ParseMember(Quote(name) + ([':'] + (a + tail))) == Some((Prop(k, v), tail))
  {
    var after := [':'] + (a + tail);
    ParseQuoted(name, after);
    SeqFacts.Uncons(':', a + tail);
    ParseMemberSteps(Quote(name) + after, name, k, after, v, tail);
  }

  lemma MemberTextParts(q: string, a: string, tail: string)
    ensures q + ":" + a + tail == q + ([':'] + (a + tail))
  {
  }

  lemma ParseMemberText(p: Prop, tail: string)
    requires p.value != Undefined && Follows(tail)
    ensures ParseMember(MemberText(p) + tail) == Some((p, tail))
  {
    var q, a := Quote(FieldName(p.field)), ValueText(p.value);
    MemberTextParts(q, a, tail);
    FieldNamedInverse(p.field);
    ParseValueText(p.value, tail);
    ParseMemberParts(FieldName(p.field), p.field, a, p.value, tail);
  }

  lemma ParseMemberListLast(s: string, p: Prop, rest: string)
    requires ParseMember(s) == Some((p, "}" + rest))
    ensures ParseMemberList(s) == Some(([p], rest))
  {
    assert ("}" + rest)[1..] == rest;
  }

  lemma ParseMemberListNext(s: string, p: Prop, s1: string, ps: JobFilter, rest: string)
    requires ParseMember(s) == Some((p, "," + s1))
    requires ParseMemberList(s1) == Some((ps, rest))
    ensures ParseMemberList(s) == Some(([p] + ps, rest))
  {
    assert ("," + s1)[1..] == s1;
  }

  lemma MembersCons(ps: JobFilter)
    requires |ps| >= 2 && AllDefined(ps)
    ensures Members(ps) == MemberText(ps[0]) + "," + Members(ps[1..])
  {
  }

  lemma Regroup(a: string, b: string, rest: string)
    ensures a + "," + b + "}" + rest == a + ("," + (b + "}" + rest))
  {
  }

  lemma {:induction false} ParseMembersText(ps: JobFilter, rest: string)
    requires ps != [] && AllDefined(ps)
    ensures ParseMemberList(Members(ps) + "}" + rest) == Some((ps, rest))
  {
    if |ps| == 1 {
      ParseLastMemberText(ps, rest);
    } else {
      ParseMembersText(ps[1..], rest);
      ParseNextMemberText(ps, rest);
    }
  }

  /** The last member of the list, then the closing brace. */
  lemma ParseLastMemberText(ps: JobFilter, rest: string)
    requires |ps| == 1 && AllDefined(ps)
    ensures ParseMemberList(Members(ps) + "}" + rest) == Some((ps, rest))
  {
    var m := MemberText(ps[0]);
    assert Members(ps) == m;
    assert m + "}" + rest == m + ("}" + rest);
    ParseMemberText(ps[0], "}" + rest);
    ParseMemberListLast(m + ("}" + rest), ps[0], rest);
    assert [ps[0]] == ps;
  }

  /** A member, a comma, and a list the reader already reads back. */
  lemma ParseNextMemberText(ps: JobFilter, rest: string)
    requires |ps| >= 2 && AllDefined(ps)
    requires ParseMemberList(Members(ps[1..]) + "}" + rest) == Some((ps[1..], rest))
    ensures ParseMemberList(Members(ps) + "}" + rest) == Some((ps, rest))
  {
    var m := MemberText(ps[0]);
    var s1 := Members(ps[1..]) + "}" + rest;
    MembersCons(ps);
    Regroup(m, Members(ps[1..]), rest);
    ParseMemberText(ps[0], "," + s1);
    ParseMemberListNext(m + ("," + s1), ps[0], s1, ps[1..], rest);
    assert [ps[0]] + ps[1..] == ps;
  }

  lemma MembersStart(ps: JobFilter)
    requires ps != [] && AllDefined(ps)
    ensures |Members(ps)| > 0 && Members(ps)[0] == '"'
  {
    var m := MemberText(ps[0]);
    assert m[0] == '"';
    if |ps| >= 2 {
      MembersCons(ps);
    }
  }

  lemma Braced(b: string)
    ensures ("{" + b + "}")[0] == '{' && ("{" + b + "}")[1..] == b + "}" + ""
    ensures |b| > 0 ==> "{" + b + "}" != "{}"
  {
  }

  /** The key can be read back into exactly the defined properties of the filter. */
  lemma ParseGetCacheKey(f: JobFilter)
    ensures ParseKey(GetCacheKey(f)) == Some(Defined(f))
  {
    var ps := Defined(f);
    var body := Members(ps);
    Braced(body);
    if ps != [] {
      MembersStart(ps);
      ParseMembersText(ps, "");
    }
  }

  /**
   * Two filters get the same cache key exactly when their defined properties
   * are the same and stand in the same order; `undefined` properties never matter.
   */
  lemma CacheKeyInjective(f: JobFilter, g: JobFilter)
    ensures GetCacheKey(f) == GetCacheKey(g) <==> Defined(f) == Defined(g)
  {
    ParseGetCacheKey(f);
    ParseGetCacheKey(g);
  }

  /** The same two criteria given in the other order make a different key, so the cache misses. */
  lemma CacheKeyDependsOnOrder(a: Prop, b: Prop)
    requires a.value != Undefined && b.value != Undefined && a.field != b.field
    ensures GetCacheKey([a, b]) != GetCacheKey([b, a])
  {
    CacheKeyInjective([a, b], [b, a]);
    assert Defined([a, b]) == [a] + Defined([b]);
    assert Defined([b, a]) == [b] + Defined([a]);
  }

  /** Writing two different defined values to one key gives two different written objects. */
  lemma {:induction false} DefinedPutDiffers(f: JobFilter, k: Field, a: Value, b: Value)
    requires a != b && a != Undefined && b != Undefined
    ensures Defined(Put(f, k, a)) != Defined(Put(f, k, b))
  {
    if f == [] {
      assert Defined(Put(f, k, a))[0].value == a;
    } else if f[0].field == k {
      assert Put(f, k, a)[1..] == f[1..] && Put(f, k, b)[1..] == f[1..];
      assert Defined(Put(f, k, a))[0].value == a;
      assert Defined(Put(f, k, b))[0].value == b;
    } else {
      var ra, rb := Put(f[1..], k, a), Put(f[1..], k, b);
      DefinedPutDiffers(f[1..], k, a, b);
      assert Put(f, k, a)[1..] == ra && Put(f, k, b)[1..] == rb;
      if f[0].value != Undefined {
        assert Defined(Put(f, k, a))[1..] == Defined(ra);
        assert Defined(Put(f, k, b))[1..] == Defined(rb);
      }
    }
  }

  /**
   * Typing the same salary bounds in the other order gives the salary object
   * its keys in the other order, so the search is cached under a different key.
   */
  lemma SalaryKeyDependsOnTypingOrder(f: JobFilter, lo: int, hi: int)
    ensures var minFirst := WithBound(WithBound(Undefined, Min, lo), Max, hi);
            var maxFirst := WithBound(WithBound(Undefined, Max, hi), Min, lo);
      && BoundOf(minFirst, Min) == BoundOf(maxFirst, Min) == Some(lo)
      && BoundOf(minFirst, Max) == BoundOf(maxFirst, Max) == Some(hi)
      && GetCacheKey(Put(f, Salary, minFirst)) != GetCacheKey(Put(f, Salary, maxFirst))
  {
    var minFirst := WithBound(WithBound(Undefined, Min, lo), Max, hi);
    var maxFirst := WithBound(WithBound(Undefined, Max, hi), Min, lo);
    assert minFirst.first.bound != maxFirst.first.bound;
    DefinedPutDiffers(f, Salary, minFirst, maxFirst);
    CacheKeyInjective(Put(f, Salary, minFirst), Put(f, Salary, maxFirst));
  }
}
