/** Signed link tokens: base64url text, a small JSON payload, decimal ids. The keyed hash is an
    arbitrary function. */
module EmailTokens {
  import opened Options

  type Byte = x: int | 0 <= x < 256
  type Mac = seq<Byte> -> seq<Byte>

  // ------------------------------------------------------------------ base64url

  /** What the decoder reads a character as: the URL-safe and the standard alphabet alike. */
  function Sextet(c: char): (v: Option<int>)
    ensures v.Some? ==> 0 <= v.value < 64
    ensures v.Some? ==> c != '=' && c != '.' && c < 128 as char
  {
    if 'A' <= c <= 'Z' then Some(c as int - 'A' as int)
    else if 'a' <= c <= 'z' then Some(c as int - 'a' as int + 26)
    else if '0' <= c <= '9' then Some(c as int - '0' as int + 52)
    else if c == '-' || c == '+' then Some(62)
    else if c == '_' || c == '/' then Some(63)
    else None
  }

  /** The URL-safe alphabet: `-` and `_` stand for the last two values. */
  function Digit(v: int): (c: char)
    requires 0 <= v < 64
    ensures Sextet(c) == Some(v)
  {
    if v < 26 then ('A' as int + v) as char
    else if v < 52 then ('a' as int + v - 26) as char
    else if v < 62 then ('0' as int + v - 52) as char
    else if v == 62 then '-'
    else '_'
  }

  function Group(a: Byte, b: Byte, c: Byte): (s: string)
    ensures |s| == 4
  {
    [Digit(a / 4), Digit(a % 4 * 16 + b / 16), Digit(b % 16 * 4 + c / 64), Digit(c % 64)]
  }

  /** Section 4 of RFC 4648 with the alphabet of its section 5: groups of three bytes, the last padded. */
  function Encode(raw: seq<Byte>): string {
    if raw == [] then ""
    else if |raw| == 1 then Group(raw[0], 0, 0)[..2] + "=="
    else if |raw| == 2 then Group(raw[0], raw[1], 0)[..3] + "="
    else Group(raw[0], raw[1], raw[2]) + Encode(raw[3..])
  }

  /** The library's decoder: `quad` sextets of the current group are read, `left` are its unused bits.
      Other characters are skipped, enough padding ends the input. */
  function Decode(s: string, quad: nat, left: nat, pads: nat): Option<seq<Byte>>
    requires quad <= 3 && (quad == 1 ==> left < 64) && (quad == 2 ==> left < 16) && (quad == 3 ==> left < 4)
  {
    if s == "" then if quad == 0 then Some([]) else None
    else if s[0] == '=' then
      if quad >= 2 && quad + pads + 1 >= 4 then Some([])
      else Decode(s[1..], quad, left, if quad >= 2 then pads + 1 else pads)
    else if Sextet(s[0]).None? then Decode(s[1..], quad, left, pads)
    else
      var v := Sextet(s[0]).value;
      match quad
      case 0 => Decode(s[1..], 1, v, 0)
      case 1 => Prepend(left * 4 + v / 16, Decode(s[1..], 2, v % 16, 0))
      case 2 => Prepend(left * 16 + v / 4, Decode(s[1..], 3, v % 4, 0))
      case _ => Prepend(left * 64 + v, Decode(s[1..], 0, 0, 0))
  }

  function Prepend(b: Byte, rest: Option<seq<Byte>>): Option<seq<Byte>> {
    if rest.Some? then Some([b] + rest.value) else None
  }

  /** Reading one alphabet character. */
  lemma DecodeOneMore(c: char, rest: string, quad: nat, left: nat, pads: nat)
    requires quad <= 3 && (quad == 1 ==> left < 64) && (quad == 2 ==> left < 16) && (quad == 3 ==> left < 4)
    requires Sextet(c).Some?
    ensures var v := Sextet(c).value;
      Decode([c] + rest, quad, left, pads) ==
        match quad
        case 0 => Decode(rest, 1, v, 0)
        case 1 => Prepend(left * 4 + v / 16, Decode(rest, 2, v % 16, 0))
        case 2 => Prepend(left * 16 + v / 4, Decode(rest, 3, v % 4, 0))
        case _ => Prepend(left * 64 + v, Decode(rest, 0, 0, 0))
  {
    assert ([c] + rest)[1..] == rest;
  }

  /** The first two characters of a group give its first byte back. */
  lemma DecodeFirst(a: Byte, b: Byte, rest: string)
    ensures Decode([Digit(a / 4)] + ([Digit(a % 4 * 16 + b / 16)] + rest), 0, 0, 0) ==
            Prepend(a, Decode(rest, 2, b / 16, 0))
  {
    hide Decode, Sextet, Digit;
    DecodeOneMore(Digit(a / 4), [Digit(a % 4 * 16 + b / 16)] + rest, 0, 0, 0);
    DecodeOneMore(Digit(a % 4 * 16 + b / 16), rest, 1, a / 4, 0);
    assert a / 4 * 4 + (a % 4 * 16 + b / 16) / 16 == a;
    assert (a % 4 * 16 + b / 16) % 16 == b / 16;
  }

  lemma DecodeSecond(b: Byte, c: Byte, rest: string)
    ensures Decode([Digit(b % 16 * 4 + c / 64)] + rest, 2, b / 16, 0) == Prepend(b, Decode(rest, 3, c / 64, 0))
  {
    hide Decode, Sextet, Digit;
    DecodeOneMore(Digit(b % 16 * 4 + c / 64), rest, 2, b / 16, 0);
    assert b / 16 * 16 + (b % 16 * 4 + c / 64) / 4 == b;
    assert (b % 16 * 4 + c / 64) % 4 == c / 64;
  }

  /** One whole group gives its three bytes back and leaves the decoder as it was. */
  lemma DecodeGroup(a: Byte, b: Byte, c: Byte, rest: string)
    ensures Decode(Group(a, b, c) + rest, 0, 0, 0) == Prepend(a, Prepend(b, Prepend(c, Decode(rest, 0, 0, 0))))
  {
    hide Decode, Sextet, Digit;
    var last := [Digit(c % 64)] + rest;
    var third := [Digit(b % 16 * 4 + c / 64)] + last;
    assert Group(a, b, c) + rest == [Digit(a / 4)] + ([Digit(a % 4 * 16 + b / 16)] + third);
    DecodeFirst(a, b, third);
    DecodeSecond(b, c, last);
    DecodeOneMore(Digit(c % 64), rest, 3, c / 64, 0);
    assert c / 64 * 64 + c % 64 == c;
  }

  lemma DecodeTwo(a: Byte, b: Byte)
    ensures Decode(Group(a, b, 0)[..3] + "=", 0, 0, 0) == Some([a, b])
  {
    hide Sextet, Digit;
    var third := [Digit(b % 16 * 4)] + "=";
    assert Group(a, b, 0)[..3] + "=" == [Digit(a / 4)] + ([Digit(a % 4 * 16 + b / 16)] + third);
    DecodeFirst(a, b, third);
    DecodeSecond(b, 0, "=");
    assert Decode("=", 3, 0, 0) == Some([]);
    assert [a] + ([b] + []) == [a, b];
  }

  lemma DecodeOne(a: Byte)
    ensures Decode(Group(a, 0, 0)[..2] + "==", 0, 0, 0) == Some([a])
  {
    hide Sextet, Digit;
    assert Group(a, 0, 0)[..2] + "==" == [Digit(a / 4)] + ([Digit(a % 4 * 16)] + "==");
    DecodeFirst(a, 0, "==");
    assert "=="[1..] == "=";
    assert Decode("==", 2, 0, 0) == Decode("=", 2, 0, 1) == Some([]);
    assert [a] + [] == [a];
  }

  lemma DecodeNothing()
    ensures Decode("", 0, 0, 0) == Some([])
  {
  }

  lemma {:induction false} DecodeEncode(raw: seq<Byte>)
    ensures Decode(Encode(raw), 0, 0, 0) == Some(raw)
  {
    hide Group, Decode;
    if raw == [] {
      DecodeNothing();
    } else if |raw| == 1 {
      DecodeOne(raw[0]);
      assert raw == [raw[0]];
    } else if |raw| == 2 {
      DecodeTwo(raw[0], raw[1]);
      assert raw == [raw[0], raw[1]];
    } else if |raw| >= 3 {
      DecodeGroup(raw[0], raw[1], raw[2], Encode(raw[3..]));
      DecodeEncode(raw[3..]);
      assert raw == [raw[0]] + ([raw[1]] + ([raw[2]] + raw[3..]));
    }
  }

  // ------------------------------------------------------------------ stripping the padding

  function StripEnd(s: string): string {
    if s != "" && s[|s| - 1] == '=' then StripEnd(s[..|s| - 1]) else s
  }

  function Padding(n: int): string { Repeat((-n) % 4) }

  function Repeat(n: nat): string { seq(n, _ => '=') }

  function EncodeUrl(raw: seq<Byte>): string { StripEnd(Encode(raw)) }

  predicate Ascii(s: string) { forall i :: 0 <= i < |s| ==> s[i] < 128 as char }

  function DecodeUrl(s: string): Option<seq<Byte>> {
    if !Ascii(s) then None else Decode(s + Padding(|s|), 0, 0, 0)
  }

  predicate Plain(s: string) { forall i :: 0 <= i < |s| ==> Sextet(s[i]).Some? }

  lemma {:induction false} EncodeShape(raw: seq<Byte>)
    ensures var s := StripEnd(Encode(raw));
      Plain(s) && Encode(raw) == s + Padding(|s|)
  {
    hide StripEnd, Group, Sextet;
    if raw == [] {
      StripPadded("", 0);
      assert Encode(raw) == "" + Repeat(0);
    } else if |raw| == 1 {
      LastGroup(raw[0], 0, 2);
    } else if |raw| == 2 {
      LastGroup(raw[0], raw[1], 3);
    } else {
      EncodeShape(raw[3..]);
      GroupIsPlain(raw[0], raw[1], raw[2]);
      OneGroupLonger(Group(raw[0], raw[1], raw[2]), Encode(raw[3..]), StripEnd(Encode(raw[3..])));
    }
  }

  lemma OneGroupLonger(g: string, rest: string, body: string)
    requires |g| == 4 && Plain(g) && Plain(body) && rest == body + Padding(|body|)
    ensures var s := StripEnd(g + rest);
      Plain(s) && g + rest == s + Padding(|s|)
  {
    hide StripEnd, Sextet;
    var all := g + body;
    assert |all| == |body| + 4;
    assert (-|all|) % 4 == (-|body|) % 4;
    assert g + rest == all + Repeat((-|body|) % 4);
    StripPadded(all, (-|body|) % 4);
  }

  lemma GroupIsPlain(a: Byte, b: Byte, c: Byte)
    ensures Plain(Group(a, b, c))
  {
    hide Sextet;
  }

  lemma LastGroup(a: Byte, b: Byte, n: nat)
    requires n == 2 || n == 3
    ensures var body := Group(a, b, 0)[..n];
      Plain(body) && StripEnd(body + Repeat(4 - n)) == body && Padding(n) == Repeat(4 - n)
    ensures Repeat(1) == "=" && Repeat(2) == "=="
  {
    hide StripEnd;
    GroupIsPlain(a, b, 0);
    StripPadded(Group(a, b, 0)[..n], 4 - n);
  }

  lemma {:induction false} StripPadded(body: string, n: nat)
    requires Plain(body)
    ensures StripEnd(body + Repeat(n)) == body
  {
    if n == 0 {
      assert body + Repeat(0) == body;
      if body != "" { assert Sextet(body[|body| - 1]).Some?; }
    } else {
      assert (body + Repeat(n))[..|body| + n - 1] == body + Repeat(n - 1);
      StripPadded(body, n - 1);
    }
  }

  /** For every byte string: stripping the padding and padding again round-trips, and the text holds
      no dot, so it can stand in front of one. */
  lemma UrlRoundTrip(raw: seq<Byte>)
    ensures DecodeUrl(EncodeUrl(raw)) == Some(raw)
    ensures '.' !in EncodeUrl(raw) && '=' !in EncodeUrl(raw)
  {
    EncodeShape(raw);
    DecodeEncode(raw);
  }

  /** Table 2 of RFC 4648: A to Z, a to z, 0 to 9, minus, underscore. */
  lemma AlphabetInOrder(v: int)
    requires 0 <= v < 63
    ensures Digit(0) == 'A' && Digit(25) == 'Z' && Digit(26) == 'a' && Digit(51) == 'z'
    ensures Digit(52) == '0' && Digit(61) == '9' && Digit(62) == '-' && Digit(63) == '_'
    ensures v != 25 && v != 51 && v < 61 ==> Digit(v + 1) as int == Digit(v) as int + 1
  {
  }

  lemma GroupsOfOne(a: Byte, b: Byte, c: Byte)
    ensures Encode([a, b, c]) == Group(a, b, c)
    ensures Encode([a, b]) == Group(a, b, 0)[..3] + "=" && Encode([a]) == Group(a, 0, 0)[..2] + "=="
  {
    hide Group;
    assert [a, b, c][3..] == [] && Encode([]) == "";
  }

  /** Four characters stand for the 24 bits of their three bytes, in order; a last group of one or two bytes
      is the beginning of one filled up with zeros. */
  lemma GroupIsBigEndian(a: Byte, b: Byte, c: Byte) returns (p: int, q: int, r: int, t: int)
    ensures 0 <= p < 64 && 0 <= q < 64 && 0 <= r < 64 && 0 <= t < 64
    ensures p * 262_144 + q * 4_096 + r * 64 + t == a * 65_536 + b * 256 + c
    ensures Encode([a, b, c]) == [Digit(p), Digit(q), Digit(r), Digit(t)]
    ensures c == 0 ==> Encode([a, b]) == [Digit(p), Digit(q), Digit(r), '=']
    ensures b == 0 && c == 0 ==> Encode([a]) == [Digit(p), Digit(q), '=', '=']
  {
    p, q, r, t := a / 4, a % 4 * 16 + b / 16, b % 16 * 4 + c / 64, c % 64;
    GroupsOfOne(a, b, c);
  }

  lemma EncodeNonempty(raw: seq<Byte>)
    requires raw != []
    ensures EncodeUrl(raw) != ""
  {
    UrlRoundTrip(raw);
  }

  // ------------------------------------------------------------------ the payload

  /** Characters JSON leaves as they are. */
  predicate Unescaped(c: char) { ' ' <= c <= '~' && c != '"' && c != '\\' }

  predicate AllUnescaped(s: string) { forall i :: 0 <= i < |s| ==> Unescaped(s[i]) }

  function Bytes(s: string): seq<Byte>
    requires Ascii(s)
  {
    seq(|s|, i requires 0 <= i < |s| => s[i] as int)
  }

  function Text(bytes: seq<Byte>): Option<string> {
    if forall i :: 0 <= i < |bytes| ==> bytes[i] < 128 then
      Some(seq(|bytes|, i requires 0 <= i < |bytes| => bytes[i] as char))
    else None
  }

  lemma TextOfBytes(s: string)
    requires Ascii(s)
    ensures Text(Bytes(s)) == Some(s)
  {
    assert Text(Bytes(s)).Some?;
    assert Text(Bytes(s)).value == s;
  }

  /** Bytes are a text exactly if they are its ASCII codes. */
  lemma TextIs(bytes: seq<Byte>, s: string)
    ensures Text(bytes) == Some(s) <==>
      |s| == |bytes| && forall i :: 0 <= i < |s| ==> s[i] as int == bytes[i] && bytes[i] <= 127
  {
    if |s| == |bytes| && forall i :: 0 <= i < |s| ==> s[i] as int == bytes[i] && bytes[i] <= 127 {
      assert Text(bytes).Some?;
      assert Text(bytes).value == s;
    }
  }

  datatype Quoted = Quoted(text: string, rest: string)

  /** Reads up to the closing quote. */
  function ReadToQuote(s: string): Option<Quoted> {
    if s == "" || !(Unescaped(s[0]) || s[0] == '"') then None
    else if s[0] == '"' then Some(Quoted("", s[1..]))
    else
      var tail := ReadToQuote(s[1..]);
      if tail.None? then None else Some(Quoted([s[0]] + tail.value.text, tail.value.rest))
  }

  function ReadQuoted(s: string): (q: Option<Quoted>)
    ensures q.Some? ==> |q.value.rest| < |s|
  {
    if s == "" || s[0] != '"' then None else
      RestIsShorter(s[1..]);
      ReadToQuote(s[1..])
  }

  lemma {:induction false} RestIsShorter(s: string)
    ensures ReadToQuote(s).Some? ==> |ReadToQuote(s).value.rest| <= |s|
  {
    if s != "" { RestIsShorter(s[1..]); }
  }

  function ReadMembers(s: string, seen: map<string, string>): Option<map<string, string>>
    decreases |s|
  {
    var key := ReadQuoted(s);
    if key.None? || key.value.rest == "" || key.value.rest[0] != ':' then None else
      var value := ReadQuoted(key.value.rest[1..]);
      if value.None? || value.value.rest == "" then None else
        var all, rest := seen[key.value.text := value.value.text], value.value.rest;
        if rest == "}" then Some(all)
        else if rest[0] == ',' then ReadMembers(rest[1..], all)
        else None
  }

  /** A JSON object of plain string members, the only kind of payload the application signs. */
  function ReadObject(s: string): Option<map<string, string>> {
    if s == "" || s[0] != '{' then None else ReadMembers(s[1..], map[])
  }

  function Payload(user: string, category: string): string {
    "{" + (Quote("u") + (":" + (Quote(user) + ("," + (Quote("c") + (":" + (Quote(category) + "}")))))))
  }

  function Quote(s: string): string { "\"" + s + "\"" }

  lemma {:induction false} ReadsQuoted(text: string, rest: string)
    requires AllUnescaped(text)
    ensures ReadToQuote(text + ("\"" + rest)) == Some(Quoted(text, rest))
  {
    if text == "" {
      assert text + ("\"" + rest) == "\"" + rest;
    } else {
      assert (text + ("\"" + rest))[1..] == text[1..] + ("\"" + rest);
      ReadsQuoted(text[1..], rest);
      assert text == [text[0]] + text[1..];
    }
  }

  lemma ReadsQuote(text: string, rest: string)
    requires AllUnescaped(text)
    ensures ReadQuoted(Quote(text) + rest) == Some(Quoted(text, rest))
  {
    ReadsQuoted(text, rest);
    assert (Quote(text) + rest)[1..] == text + ("\"" + rest);
  }

  lemma ReadsMember(key: string, value: string, rest: string, seen: map<string, string>)
    requires AllUnescaped(key) && AllUnescaped(value) && rest != ""
    ensures var s := Quote(key) + (":" + (Quote(value) + rest));
      ReadMembers(s, seen) ==
        if rest == "}" then Some(seen[key := value])
        else if rest[0] == ',' then ReadMembers(rest[1..], seen[key := value])
        else None
  {
    ReadsQuote(key, ":" + (Quote(value) + rest));
    assert (":" + (Quote(value) + rest))[1..] == Quote(value) + rest;
    ReadsQuote(value, rest);
  }

  lemma AsciiQuote(s: string)
    requires AllUnescaped(s)
    ensures Ascii(Quote(s)) && Quote(s) != ""
  {
  }

  lemma AsciiConcat(s: string, t: string)
    requires Ascii(s) && Ascii(t)
    ensures Ascii(s + t)
  {
  }

  lemma AsciiPayload(user: string, category: string)
    requires AllUnescaped(user) && AllUnescaped(category)
    ensures Ascii(Payload(user, category))
  {
    hide Quote;
    AsciiQuote("u");
    AsciiQuote("c");
    AsciiQuote(user);
    AsciiQuote(category);
    var tail := ":" + (Quote(category) + "}");
    AsciiConcat(Quote(category), "}");
    AsciiConcat(":", Quote(category) + "}");
    AsciiConcat(Quote("c"), tail);
    AsciiConcat(",", Quote("c") + tail);
    var rest := "," + (Quote("c") + tail);
    AsciiConcat(Quote(user), rest);
    AsciiConcat(":", Quote(user) + rest);
    AsciiConcat(Quote("u"), ":" + (Quote(user) + rest));
  }

  lemma NamesArePlain()
    ensures AllUnescaped("u") && AllUnescaped("c")
  {
  }

  lemma PayloadReads(user: string, category: string)
    requires AllUnescaped(user) && AllUnescaped(category)
    ensures Ascii(Payload(user, category))
    ensures ReadObject(Payload(user, category)) == Some(map["u" := user, "c" := category])
  {
    hide ReadMembers, Unescaped, Quote;
    assert AllUnescaped("u") && AllUnescaped("c") by { NamesArePlain(); }
    AsciiPayload(user, category);
    var second := Quote("c") + (":" + (Quote(category) + "}"));
    assert Payload(user, category)[1..] == Quote("u") + (":" + (Quote(user) + ("," + second)));
    ReadsMember("u", user, "," + second, map[]);
    assert ("," + second)[1..] == second;
    ReadsMember("c", category, "}", map["u" := user]);
  }

  /** The members of an object as they are printed, the closing brace included. */
  function PrintMembers(keys: seq<string>, values: seq<string>): string
    requires |keys| == |values| > 0
  {
    var rest := if |keys| == 1 then "}" else "," + PrintMembers(keys[1..], values[1..]);
    Quote(keys[0]) + (":" + (Quote(values[0]) + rest))
  }

  /** The members in order; of a repeated one the last counts. */
  function Members(keys: seq<string>, values: seq<string>): map<string, string>
    requires |keys| == |values|
  {
    if keys == [] then map[] else map[keys[0] := values[0]] + Members(keys[1..], values[1..])
  }

  lemma {:induction false} QuoteRead(s: string)
    requires ReadToQuote(s).Some?
    ensures var q := ReadToQuote(s).value; AllUnescaped(q.text) && s == q.text + ("\"" + q.rest)
  {
    if s[0] == '"' {
      assert s == "" + ("\"" + s[1..]);
    } else {
      QuoteRead(s[1..]);
      assert s == [s[0]] + s[1..];
    }
  }

  lemma {:induction false} OneRead(s: string)
    requires ReadQuoted(s).Some?
    ensures var q := ReadQuoted(s).value; AllUnescaped(q.text) && s == Quote(q.text) + q.rest
  {
    QuoteRead(s[1..]);
  }

  /** Whatever is read as an object was printed as one: nothing else is taken for a payload. */
  lemma {:induction false} ReadIsPrinted(s: string, seen: map<string, string>)
    returns (keys: seq<string>, values: seq<string>)
    requires ReadMembers(s, seen).Some?
    ensures |keys| == |values| > 0 && (forall k :: k in keys || k in values ==> AllUnescaped(k))
    ensures s == PrintMembers(keys, values) && ReadMembers(s, seen).value == seen + Members(keys, values)
    decreases |s|
  {
    hide ReadQuoted, AllUnescaped, Quote;
    OneRead(s);
    var key := ReadQuoted(s).value;
    OneRead(key.rest[1..]);
    var value := ReadQuoted(key.rest[1..]).value;
    assert key.rest == ":" + key.rest[1..];
    if value.rest == "}" {
      keys, values := [key.text], [value.text];
      assert Members(keys[1..], values[1..]) == map[];
    } else {
      assert value.rest == "," + value.rest[1..];
      var more, others := ReadIsPrinted(value.rest[1..], seen[key.text := value.text]);
      keys, values := [key.text] + more, [value.text] + others;
      assert keys[1..] == more && values[1..] == others;
    }
  }

  // ------------------------------------------------------------------ unsubscribe tokens

  const DIGEST_CATEGORIES := {
    "reminder", "social_activity", "friends_going", "plan_activity", "friend_reviews", "friend_milestones"}
  const PROMPT_CATEGORIES := {
    "interest_matches", "promo_codes", "promo_code_matches", "review_prompt", "ticket_prompt", "memories_prompt"}
  const OTHER_CATEGORIES := {
    "milestone", "event_messages", "suggested_events", "schedule_updates", "digest", "activity"}
  const CATEGORIES := DIGEST_CATEGORIES + PROMPT_CATEGORIES + OTHER_CATEGORIES

  datatype Verdict<T> = Accepted(value: T) | Rejected | Raises

  function Sign(mac: Mac, payload: seq<Byte>): string { EncodeUrl(mac(payload)) }

  /** `None` when the category is unknown. */
  function MakeUnsubscribe(mac: Mac, user: string, category: string): Option<string>
    requires AllUnescaped(user)
  {
    if category !in CATEGORIES then None else
      CategoriesArePlain(category);
      PayloadReads(user, category);
      var payload := Bytes(Payload(user, category));
      Some(EncodeUrl(payload) + ("." + Sign(mac, payload)))
  }

  lemma DigestsArePlain(category: string)
    requires category in DIGEST_CATEGORIES
    ensures AllUnescaped(category)
  {
  }

  lemma PromptsArePlain(category: string)
    requires category in PROMPT_CATEGORIES
    ensures AllUnescaped(category)
  {
  }

  lemma OthersArePlain(category: string)
    requires category in OTHER_CATEGORIES
    ensures AllUnescaped(category)
  {
  }

  lemma CategoriesArePlain(category: string)
    requires category in CATEGORIES
    ensures AllUnescaped(category)
  {
    hide DIGEST_CATEGORIES, PROMPT_CATEGORIES, OTHER_CATEGORIES, AllUnescaped;
    if category in DIGEST_CATEGORIES {
      DigestsArePlain(category);
    } else if category in PROMPT_CATEGORIES {
      PromptsArePlain(category);
    } else {
      OthersArePlain(category);
    }
  }

  /** Where the first dot is; the length when there is none. */
  function Dot(s: string): (at: nat)
    ensures at <= |s| && (at < |s| ==> s[at] == '.')
  {
    if s == "" || s[0] == '.' then 0 else 1 + Dot(s[1..])
  }

  lemma {:induction false} DotAfter(body: string, rest: string)
    requires '.' !in body
    ensures Dot(body + ("." + rest)) == |body|
  {
    if body != "" {
      assert (body + ("." + rest))[1..] == body[1..] + ("." + rest);
      DotAfter(body[1..], rest);
    }
  }

  /** Comparing with a signature that is not plain ASCII raises instead of answering. */
  function VerifyUnsubscribe(mac: Mac, token: string): Verdict<(string, string)> {
    var at := Dot(token);
    if at == |token| || DecodeUrl(token[..at]).None? then Rejected else
      var payload, sig := DecodeUrl(token[..at]).value, token[at + 1..];
      if !Ascii(sig) then Raises
      else if Sign(mac, payload) != sig || Text(payload).None? || ReadObject(Text(payload).value).None? then Rejected
      else
        var data := ReadObject(Text(payload).value).value;
        if "u" !in data || data["u"] == "" || "c" !in data || data["c"] !in CATEGORIES then Rejected
        else Accepted((data["u"], data["c"]))
  }

  lemma SignIsAscii(mac: Mac, payload: seq<Byte>)
    ensures Ascii(Sign(mac, payload)) && '.' !in Sign(mac, payload)
  {
    EncodeShape(mac(payload));
  }

  /** For every user id and category: verifying undoes making, except that an empty id is refused. */
  lemma UnsubscribeRoundTrip(mac: Mac, user: string, category: string)
    requires AllUnescaped(user) && category in CATEGORIES
    ensures var token := MakeUnsubscribe(mac, user, category);
      && token.Some?
      && VerifyUnsubscribe(mac, token.value) == if user == "" then Rejected else Accepted((user, category))
  {
    hide CATEGORIES, Payload, EncodeUrl, DecodeUrl, ReadObject;
    CategoriesArePlain(category);
    PayloadReads(user, category);
    TextOfBytes(Payload(user, category));
    var payload := Bytes(Payload(user, category));
    UrlRoundTrip(payload);
    SignIsAscii(mac, payload);
    var body, sig := EncodeUrl(payload), Sign(mac, payload);
    DotAfter(body, sig);
    var token := body + ("." + sig);
    assert token[..|body|] == body && token[|body| + 1..] == sig;
  }

  lemma {:induction false} NoDotBefore(token: string, i: nat)
    requires i < Dot(token)
    ensures token[i] != '.'
  {
    if i > 0 {
      NoDotBefore(token[1..], i - 1);
      assert token[i] == token[1..][i - 1];
    }
  }

  lemma BeforeTheDot(token: string)
    ensures '.' !in token[..Dot(token)]
    ensures Dot(token) < |token| ==> token == token[..Dot(token)] + ("." + token[Dot(token) + 1..])
  {
    forall i | 0 <= i < Dot(token) ensures token[i] != '.' { NoDotBefore(token, i); }
    if Dot(token) < |token| { CutAt(token, Dot(token)); }
    hide Dot;
  }

  lemma CutAt(s: string, at: nat)
    requires at < |s|
    ensures s == s[..at] + ([s[at]] + s[at + 1..])
  {
    assert s[at..] == [s[at]] + s[at + 1..];
    assert s == s[..at] + s[at..];
  }

  lemma SplitAtDot(body: string, sig: string)
    requires '.' !in body
    ensures var token := body + ("." + sig);
      Dot(token) == |body| && Dot(token) < |token| && token[..Dot(token)] == body && token[Dot(token) + 1..] == sig
  {
    DotAfter(body, sig);
  }

  /** The body names this user and category, and the signature is the hash of what the body decodes to. */
  predicate Vouches(mac: Mac, body: string, sig: string, user: string, category: string) {
    && '.' !in body && DecodeUrl(body).Some? && sig == EncodeUrl(mac(DecodeUrl(body).value))
    && Text(DecodeUrl(body).value).Some?
    && var data := ReadObject(Text(DecodeUrl(body).value).value);
       && data.Some? && "u" in data.value && "c" in data.value
       && data.value["u"] == user != "" && data.value["c"] == category && category in CATEGORIES
  }

  /** Nothing is accepted without its signature, and everything with it: for every string, a token is
      accepted for a user and a category exactly if it is a body that names them and the body's signature. */
  lemma AcceptedUnsubscribeIff(mac: Mac, token: string, user: string, category: string)
    ensures VerifyUnsubscribe(mac, token) == Accepted((user, category)) <==>
      exists body, sig :: token == body + ("." + sig) && Vouches(mac, body, sig, user, category)
  {
    hide DecodeUrl, EncodeUrl, ReadObject, CATEGORIES, Dot;
    BeforeTheDot(token);
    if VerifyUnsubscribe(mac, token) == Accepted((user, category)) {
      var body, sig := token[..Dot(token)], token[Dot(token) + 1..];
      assert token == body + ("." + sig) && Vouches(mac, body, sig, user, category);
    }
    if body, sig :| token == body + ("." + sig) && Vouches(mac, body, sig, user, category) {
      SplitAtDot(body, sig);
      SignIsAscii(mac, DecodeUrl(body).value);
    }
  }

  /** So no body is accepted with two signatures. */
  lemma OneSignature(mac: Mac, body: string, sig: string, other: string)
    requires '.' !in body
    requires VerifyUnsubscribe(mac, body + ("." + sig)).Accepted?
    requires VerifyUnsubscribe(mac, body + ("." + other)).Accepted?
    ensures sig == other
  {
    hide DecodeUrl, EncodeUrl, ReadObject, CATEGORIES, Dot;
    SplitAtDot(body, sig);
    SplitAtDot(body, other);
  }

  /** When verifying raises instead of answering: the signature part of a readable token is not ASCII. */
  lemma UnsubscribeRaisesIff(mac: Mac, token: string)
    ensures VerifyUnsubscribe(mac, token).Raises? <==>
      exists body, sig :: token == body + ("." + sig) && '.' !in body && DecodeUrl(body).Some?
                          && exists c :: c in sig && c >= 128 as char
  {
    hide DecodeUrl, EncodeUrl, ReadObject, CATEGORIES, Dot;
    BeforeTheDot(token);
    if VerifyUnsubscribe(mac, token).Raises? {
      var body, sig := token[..Dot(token)], token[Dot(token) + 1..];
      assert token == body + ("." + sig);
      var i :| 0 <= i < |sig| && sig[i] >= 128 as char;
      assert sig[i] in sig;
    }
    if body, sig :| token == body + ("." + sig) && '.' !in body && DecodeUrl(body).Some?
                    && exists c :: c in sig && c >= 128 as char {
      SplitAtDot(body, sig);
    }
  }

  // ------------------------------------------------------------------ notification tokens

  function Decimal(n: nat): string {
    if n < 10 then [('0' as int + n) as char] else Decimal(n / 10) + [('0' as int + n % 10) as char]
  }

  function Print(n: int): string { if n < 0 then "-" + Decimal(-n) else Decimal(n) }

  /** `isdigit` per character, and the value `int` gives it; some digits, as superscripts, have none. */
  datatype Digits = Digits(isDigit: char -> bool, value: char -> Option<nat>) {
    ghost predicate Valid() {
      && (forall c :: '0' <= c <= '9' ==> isDigit(c) && value(c) == Some(c as int - '0' as int))
      && !isDigit('-')
    }
  }

  function Parse(d: Digits, s: string): Option<nat> {
    if s == "" then Some(0) else
      var front, last := Parse(d, s[..|s| - 1]), d.value(s[|s| - 1]);
      if front.None? || last.None? then None else Some(front.value * 10 + last.value)
  }

  function NotificationPayload(n: int, action: string): string { "notif:" + action + ":" + Print(n) }

  lemma {:induction false} DecimalIsPlain(n: nat)
    ensures Decimal(n) != "" && Ascii(Decimal(n)) && forall i :: 0 <= i < |Decimal(n)| ==> '0' <= Decimal(n)[i] <= '9'
  {
    if n >= 10 { DecimalIsPlain(n / 10); }
  }

  lemma {:induction false} ParseDecimal(d: Digits, n: nat)
    requires d.Valid()
    ensures Parse(d, Decimal(n)) == Some(n)
  {
    var s := Decimal(n);
    var c := ('0' as int + n % 10) as char;
    assert '0' <= c <= '9' && d.value(c) == Some(n % 10);
    if n >= 10 {
      ParseDecimal(d, n / 10);
      assert s[..|s| - 1] == Decimal(n / 10);
    } else {
      assert s[..|s| - 1] == "" && s[|s| - 1] == c;
    }
  }

  function Prefix(s: string, n: nat): string { if |s| <= n then s else s[..n] }

  lemma AsciiNotification(n: int, action: string)
    requires Ascii(action)
    ensures Ascii(NotificationPayload(n, action))
  {
    hide Print;
    PrintIsPlain(n);
  }

  function NotificationSig(mac: Mac, n: int, action: string): string
    requires Ascii(action)
  {
    AsciiNotification(n, action);
    Prefix(Sign(mac, Bytes(NotificationPayload(n, action))), 22)
  }

  lemma PrintIsPlain(n: int)
    ensures Ascii(Print(n)) && '.' !in Print(n) && ':' !in Print(n) && Print(n) != ""
    ensures n < 0 ==> Print(n)[0] == '-'
  {
    DecimalIsPlain(if n < 0 then -n else n);
  }

  function MakeNotification(mac: Mac, n: int, action: string): string
    requires Ascii(action)
  {
    Print(n) + ("." + NotificationSig(mac, n, action))
  }

  /** An id of digits without a value makes `int` raise; so does comparing a signature that is not ASCII. */
  function VerifyNotification(mac: Mac, d: Digits, token: string, action: string): Verdict<nat>
    requires Ascii(action)
  {
    var at := Dot(token);
    var text, sig := token[..at], if at == |token| then "" else token[at + 1..];
    if text == "" || !(forall i :: 0 <= i < |text| ==> d.isDigit(text[i])) || sig == "" then Rejected
    else if Parse(d, text).None? || !Ascii(sig) then Raises
    else if NotificationSig(mac, Parse(d, text).value, action) != sig then Rejected
    else Accepted(Parse(d, text).value)
  }

  lemma SignNonempty(mac: Mac, payload: seq<Byte>)
    requires mac(payload) != []
    ensures Sign(mac, payload) != ""
  {
    EncodeNonempty(mac(payload));
  }

  /** Verifying undoes making exactly for ids that are not negative; a digest is never empty. */
  lemma NotificationRoundTrip(mac: Mac, d: Digits, n: int, action: string)
    requires Ascii(action) && d.Valid() && forall p :: mac(p) != []
    ensures VerifyNotification(mac, d, MakeNotification(mac, n, action), action) ==
            if n >= 0 then Accepted(n) else Rejected
  {
    hide Decimal, NotificationPayload, Dot, Sign, EncodeUrl, Parse;
    PrintIsPlain(n);
    AsciiNotification(n, action);
    var text, sig := Print(n), NotificationSig(mac, n, action);
    SignIsAscii(mac, Bytes(NotificationPayload(n, action)));
    SignNonempty(mac, Bytes(NotificationPayload(n, action)));
    DotAfter(text, sig);
    var token := text + ("." + sig);
    assert token[..|text|] == text && token[|text| + 1..] == sig;
    if n >= 0 {
      DecimalIsPlain(n);
      ParseDecimal(d, n);
    } else {
      assert !d.isDigit(text[0]);
    }
  }

  /** Digits that read as the id, and the first 22 characters of the hash of that id and that action. */
  predicate VouchesFor(mac: Mac, d: Digits, text: string, sig: string, action: string, n: nat)
    requires Ascii("notif:" + action + ":" + Print(n))
  {
    && '.' !in text && text != "" && (forall c :: c in text ==> d.isDigit(c)) && Parse(d, text) == Some(n)
    && var full := EncodeUrl(mac(Bytes("notif:" + action + ":" + Print(n))));
       sig <= full && |sig| == if |full| < 22 then |full| else 22
  }

  lemma SignatureIs(mac: Mac, sig: string, action: string, n: nat)
    requires Ascii(action) && forall p :: mac(p) != []
    ensures Ascii("notif:" + action + ":" + Print(n))
    ensures var full := EncodeUrl(mac(Bytes("notif:" + action + ":" + Print(n))));
      NotificationSig(mac, n, action) == sig <==> sig <= full && |sig| == if |full| < 22 then |full| else 22
    ensures Ascii(NotificationSig(mac, n, action)) && NotificationSig(mac, n, action) != ""
  {
    hide Print, EncodeUrl;
    AsciiNotification(n, action);
    var payload := Bytes(NotificationPayload(n, action));
    SignIsAscii(mac, payload);
    SignNonempty(mac, payload);
  }

  /** Nothing is accepted without its signature: for every string, a token is accepted as an id for an action
      exactly if it is digits that read as the id, a dot, and the signature cut from that id and that action. */
  lemma AcceptedNotificationIff(mac: Mac, d: Digits, token: string, action: string, n: nat)
    requires Ascii(action) && d.Valid() && forall p :: mac(p) != []
    ensures Ascii("notif:" + action + ":" + Print(n))
    ensures VerifyNotification(mac, d, token, action) == Accepted(n) <==>
      exists text, sig :: token == text + ("." + sig) && VouchesFor(mac, d, text, sig, action, n)
  {
    hide VerifyNotification, VouchesFor, Print, EncodeUrl, Dot;
    AsciiNotification(n, action);
    if VerifyNotification(mac, d, token, action) == Accepted(n) {
      BeforeTheDot(token);
      AcceptedVouches(mac, d, token, action, n);
      var text, sig := token[..Dot(token)], token[Dot(token) + 1..];
      assert token == text + ("." + sig);
    }
    if text, sig :| token == text + ("." + sig) && VouchesFor(mac, d, text, sig, action, n) {
      VouchedIsAccepted(mac, d, text, sig, action, n);
    }
  }

  lemma AcceptedVouches(mac: Mac, d: Digits, token: string, action: string, n: nat)
    requires Ascii(action) && d.Valid() && (forall p :: mac(p) != []) && Ascii("notif:" + action + ":" + Print(n))
    requires VerifyNotification(mac, d, token, action) == Accepted(n)
    ensures Dot(token) < |token| && VouchesFor(mac, d, token[..Dot(token)], token[Dot(token) + 1..], action, n)
  {
    AcceptedParts(mac, d, token, action, n);
    hide VerifyNotification, Ascii, Print, EncodeUrl, Parse, Dot, NotificationSig, Bytes;
    BeforeTheDot(token);
    SignatureIs(mac, token[Dot(token) + 1..], action, n);
    AllDigits(d, token[..Dot(token)]);
  }

  lemma AcceptedParts(mac: Mac, d: Digits, token: string, action: string, n: nat)
    requires Ascii(action) && VerifyNotification(mac, d, token, action) == Accepted(n)
    ensures Dot(token) < |token|
    ensures var text, sig := token[..Dot(token)], token[Dot(token) + 1..];
      text != "" && (forall i :: 0 <= i < |text| ==> d.isDigit(text[i])) && Parse(d, text) == Some(n)
      && NotificationSig(mac, n, action) == sig
  {
    hide Ascii, Print, EncodeUrl, Parse, Dot, NotificationSig, Sign;
  }

  lemma AllDigits(d: Digits, text: string)
    ensures (forall i :: 0 <= i < |text| ==> d.isDigit(text[i])) <==> (forall c :: c in text ==> d.isDigit(c))
  {
    if forall c :: c in text ==> d.isDigit(c) {
      forall i | 0 <= i < |text| ensures d.isDigit(text[i]) { assert text[i] in text; }
    }
  }

  lemma VouchedIsAccepted(mac: Mac, d: Digits, text: string, sig: string, action: string, n: nat)
    requires Ascii(action) && d.Valid() && (forall p :: mac(p) != []) && Ascii("notif:" + action + ":" + Print(n))
    requires VouchesFor(mac, d, text, sig, action, n)
    ensures VerifyNotification(mac, d, text + ("." + sig), action) == Accepted(n)
  {
    hide Decimal, Print, EncodeUrl, Parse, Dot, NotificationSig, Sign;
    SplitAtDot(text, sig);
    SignatureIs(mac, sig, action, n);
  }

  /** Different ids or actions never sign the same payload, so a click token verifies as an open, or
      for another id, only where the hash itself collides. */
  lemma NotificationPayloadsDiffer(d: Digits, n: nat, action: string, m: nat, other: string)
    requires d.Valid() && NotificationPayload(n, action) == NotificationPayload(m, other)
    ensures n == m && action == other
  {
    hide Decimal;
    PrintIsPlain(n);
    PrintIsPlain(m);
    var head, rest := "notif:" + action, "notif:" + other;
    assert NotificationPayload(n, action) == head + (":" + Print(n));
    assert NotificationPayload(m, other) == rest + (":" + Print(m));
    LastColonAt(head, Print(n));
    LastColonAt(rest, Print(m));
    assert (head + (":" + Print(n)))[..|head|] == head && (rest + (":" + Print(m)))[..|rest|] == rest;
    assert (head + (":" + Print(n)))[|head| + 1..] == Print(n) && (rest + (":" + Print(m)))[|rest| + 1..] == Print(m);
    assert head[6..] == action && rest[6..] == other;
    ParseDecimal(d, n);
    ParseDecimal(d, m);
  }

  function LastColon(s: string): int {
    if s == "" || s[|s| - 1] == ':' then |s| - 1 else LastColon(s[..|s| - 1])
  }

  lemma {:induction false} LastColonAt(head: string, text: string)
    requires ':' !in text
    ensures LastColon(head + (":" + text)) == |head|
  {
    if text != "" {
      assert (head + (":" + text))[..|head| + |text|] == head + (":" + text[..|text| - 1]);
      LastColonAt(head, text[..|text| - 1]);
    }
  }

  /** Nor is a notification payload ever an unsubscribe payload. */
  lemma PayloadKindsDiffer(n: int, action: string, user: string, category: string)
    ensures NotificationPayload(n, action) != Payload(user, category)
  {
    assert NotificationPayload(n, action)[0] == 'n' && Payload(user, category)[0] == '{';
  }
}
