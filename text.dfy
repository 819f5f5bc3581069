/**
 * Strings as the routes use them: ASCII lower-casing, JavaScript white
 * space, substring search (`String.prototype.includes`), prompts assembled
 * from labelled segments, and decimal formatting and parsing of integers
 * (template-literal interpolation of `Date.now()` and `Number.parseInt`).
 */
module Text {
  import opened Wrappers

  // ---------------------------------------------------------------------------
  // Characters

  predicate IsUpper(c: char) { 'A' <= c <= 'Z' }

  predicate IsDigit(c: char) { '0' <= c <= '9' }

  /** ECMAScript's white space and line terminators: the characters `\s`
      matches and the ones `parseInt` skips before a number. These are tab,
      line feed, vertical tab, form feed, carriage return and space; no-break
      space, the byte order mark and the Unicode space separators; and the
      line and paragraph separators. */
  predicate IsWhitespace(c: char) {
    || c == '\t' || c == '\n' || c == '\U{000B}' || c == '\U{000C}' || c == '\r' || c == ' '
    || c == '\U{00A0}' || c == '\U{1680}' || '\U{2000}' <= c <= '\U{200A}'
    || c == '\U{2028}' || c == '\U{2029}' || c == '\U{202F}' || c == '\U{205F}'
    || c == '\U{3000}' || c == '\U{FEFF}'
  }

  function LowerChar(c: char): (r: char)
    ensures !IsUpper(r)
    ensures !IsUpper(c) ==> r == c
  {
    if IsUpper(c) then (c as int + 32) as char else c
  }

  /** `toLowerCase()`, restricted to the ASCII letters. */
  function Lower(s: string): (r: string)
    ensures |r| == |s|
    ensures forall i :: 0 <= i < |s| ==> r[i] == LowerChar(s[i])
  {
    if s == [] then [] else [LowerChar(s[0])] + Lower(s[1..])
  }

  lemma {:induction false} LowerIdempotent(s: string)
    ensures Lower(Lower(s)) == Lower(s)
  {
    if s != [] {
      LowerIdempotent(s[1..]);
    }
  }

  // ---------------------------------------------------------------------------
  // Substrings

  /** `sub` stands in `s` starting at index `i`. */
  predicate OccursAt(s: string, sub: string, i: int) {
    0 <= i && i + |sub| <= |s| && s[i..i + |sub|] == sub
  }

  /** `s.includes(sub)`: `sub` occurs in `s` at some position. */
  predicate Includes(s: string, sub: string) {
    exists i | 0 <= i <= |s| - |sub| :: OccursAt(s, sub, i)
  }

  lemma IncludesItself(s: string)
    ensures Includes(s, s)
  {
    assert OccursAt(s, s, 0);
  }

  /** An occurrence survives text added on either side. */
  lemma IncludesInContext(a: string, s: string, b: string, sub: string)
    requires Includes(s, sub)
    ensures Includes(a + s + b, sub)
  {
    var i :| 0 <= i <= |s| - |sub| && OccursAt(s, sub, i);
    var t := a + s + b;
    assert t[|a| + i..|a| + i + |sub|] == s[i..i + |sub|];
    assert OccursAt(t, sub, |a| + i);
  }

  lemma IncludesTransitive(s: string, t: string, u: string)
    requires Includes(s, t) && Includes(t, u)
    ensures Includes(s, u)
  {
    var i :| 0 <= i <= |s| - |t| && OccursAt(s, t, i);
    var j :| 0 <= j <= |t| - |u| && OccursAt(t, u, j);
    forall k | 0 <= k < |u|
      ensures s[i + j..i + j + |u|][k] == u[k]
    {
      assert u[k] == t[j..j + |u|][k] == t[j + k];
      assert t[j + k] == s[i..i + |t|][j + k] == s[i + j + k];
    }
    assert OccursAt(s, u, i + j);
  }

  /** An occurrence survives text appended after it. */
  lemma IncludesLeft(s: string, t: string, sub: string)
    requires Includes(s, sub)
    ensures Includes(s + t, sub)
  {
    var i :| 0 <= i <= |s| - |sub| && OccursAt(s, sub, i);
    assert (s + t)[i..i + |sub|] == s[i..i + |sub|];
    assert OccursAt(s + t, sub, i);
  }

  /** An occurrence survives text prepended before it. */
  lemma IncludesRight(s: string, t: string, sub: string)
    requires Includes(t, sub)
    ensures Includes(s + t, sub)
  {
    var i :| 0 <= i <= |t| - |sub| && OccursAt(t, sub, i);
    assert (s + t)[|s| + i..|s| + i + |sub|] == t[i..i + |sub|];
    assert OccursAt(s + t, sub, |s| + i);
  }

  lemma IncludesLeft2(s: string, a: string, b: string, sub: string)
    requires Includes(s, sub)
    ensures Includes(s + a + b, sub)
  {
    IncludesLeft(s, a, sub);
    IncludesLeft(s + a, b, sub);
  }

  lemma IncludesLeft3(s: string, a: string, b: string, c: string, sub: string)
    requires Includes(s, sub)
    ensures Includes(s + a + b + c, sub)
  {
    IncludesLeft2(s, a, b, sub);
    IncludesLeft(s + a + b, c, sub);
  }

  /** A text includes what it ends with. */
  lemma IncludesEnd(s: string, t: string)
    ensures Includes(s + t, t)
  {
    IncludesItself(t);
    IncludesRight(s, t, t);
  }

  /** `t` occurs in any text written around it. */
  lemma IncludesPart(a: string, t: string, b: string)
    ensures Includes(a + t + b, t)
  {
    IncludesItself(t);
    IncludesInContext(a, t, b, t);
  }

  /** To rule out an occurrence of `sub` it is enough that its first two
      characters never stand next to each other in `s`. (Literals longer than
      about thirty characters are written as concatenations below, so that the
      verifier can read their characters.) */
  lemma NotIncludedWithoutPair(s: string, sub: string, first: char, second: char)
    requires |sub| >= 2 && sub[0] == first && sub[1] == second
    requires forall i :: 0 <= i < |s| - 1 ==> !(s[i] == first && s[i + 1] == second)
    ensures !Includes(s, sub)
  {
    forall i | 0 <= i <= |s| - |sub|
      ensures !OccursAt(s, sub, i)
    {
      assert !(s[i] == first && s[i + 1] == second);
      assert s[i..i + |sub|][0] == s[i] && s[i..i + |sub|][1] == s[i + 1];
    }
  }

  // ---------------------------------------------------------------------------
  // Prompts as labelled segments

  /** One piece of a prompt that the source appends as a unit; `kind` says
      which instruction it is, `text` is exactly what is appended. */
  datatype Segment<K> = Segment(kind: K, text: string)

  /** The prompt string: the texts of the segments, in order. */
  function Render<K>(parts: seq<Segment<K>>): string {
    if parts == [] then "" else Render(parts[..|parts| - 1]) + parts[|parts| - 1].text
  }

  lemma RenderAppend<K>(parts: seq<Segment<K>>, s: Segment<K>)
    ensures Render(parts + [s]) == Render(parts) + s.text
  {
    assert (parts + [s])[..|parts|] == parts;
  }

  /** Rendering two runs of segments one after the other. */
  lemma {:induction false} RenderConcat<K>(a: seq<Segment<K>>, b: seq<Segment<K>>)
    ensures Render(a + b) == Render(a) + Render(b)
  {
    if b == [] {
      assert a + b == a;
    } else {
      var init := b[..|b| - 1];
      assert a + b == (a + init) + [b[|b| - 1]];
      RenderAppend(a + init, b[|b| - 1]);
      RenderConcat(a, init);
      RenderAppend(init, b[|b| - 1]);
      assert init + [b[|b| - 1]] == b;
    }
  }

  /** There is a segment of kind `k`. */
  predicate Has<K(==)>(parts: seq<Segment<K>>, k: K) {
    exists i :: 0 <= i < |parts| && parts[i].kind == k
  }

  lemma HasConcat<K>(a: seq<Segment<K>>, b: seq<Segment<K>>, k: K)
    ensures Has(a + b, k) <==> Has(a, k) || Has(b, k)
  {
    if Has(a + b, k) {
      var i :| 0 <= i < |a + b| && (a + b)[i].kind == k;
      if i >= |a| {
        assert b[i - |a|].kind == k;
      }
    }
    if Has(a, k) {
      var i :| 0 <= i < |a| && a[i].kind == k;
      assert (a + b)[i].kind == k;
    }
    if Has(b, k) {
      var j :| 0 <= j < |b| && b[j].kind == k;
      assert (a + b)[|a| + j].kind == k;
    }
  }

  /** An optional segment is there exactly when its field is non-empty. */
  lemma HasOptional<K>(kind: K, field: string, text: string, k: K)
    ensures Has(Optional(kind, field, text), k) <==> field != "" && kind == k
  {
    if field != "" && kind == k {
      assert Optional(kind, field, text)[0].kind == k;
    }
  }

  /** Every segment's text occurs in the rendered prompt. */
  lemma {:induction false} SegmentOccurs<K>(parts: seq<Segment<K>>, i: nat)
    requires i < |parts|
    ensures Includes(Render(parts), parts[i].text)
  {
    var init := parts[..|parts| - 1];
    var last := parts[|parts| - 1];
    assert Render(parts) == Render(init) + last.text;
    if i == |parts| - 1 {
      IncludesItself(last.text);
      IncludesInContext(Render(init), last.text, "", last.text);
      assert Render(init) + last.text + "" == Render(parts);
    } else {
      assert init[i] == parts[i];
      SegmentOccurs(init, i);
      IncludesInContext("", Render(init), last.text, parts[i].text);
      assert "" + Render(init) + last.text == Render(parts);
    }
  }

  /** `Optional(k, field, text)`: the segment the source appends only when
      `field` is non-empty. */
  function Optional<K>(kind: K, field: string, text: string): seq<Segment<K>> {
    if field != "" then [Segment(kind, text)] else []
  }

  /** A present optional segment occurs in the rendering, whatever comes
      before and after it. */
  lemma OptionalOccurs<K>(pre: seq<Segment<K>>, kind: K, field: string, text: string,
                          post1: seq<Segment<K>>, post2: seq<Segment<K>>, post3: seq<Segment<K>>)
    requires field != ""
    ensures Includes(Render(pre + Optional(kind, field, text) + post1 + post2), text)
    ensures Includes(Render(pre + Optional(kind, field, text) + post1 + post2 + post3), text)
  {
    var parts := pre + Optional(kind, field, text) + post1 + post2;
    assert parts[|pre|] == Segment(kind, text);
    SegmentOccurs(parts, |pre|);
    var longer := parts + post3;
    assert longer[|pre|] == Segment(kind, text);
    SegmentOccurs(longer, |pre|);
  }

  /** JavaScript truthiness of an optional string: present and not empty. */
  predicate Given(p: Option<string>) {
    p.Some? && p.value != ""
  }

  /** `p || fallback` on an optional string. */
  function OrElse(p: Option<string>, fallback: string): string {
    if Given(p) then p.value else fallback
  }

  /** The text an optional segment contributes to the rendering. */
  function IfGiven(field: string, text: string): string {
    if field != "" then text else ""
  }

  lemma RenderAppendOptional<K>(parts: seq<Segment<K>>, kind: K, field: string, text: string)
    ensures Render(parts + Optional(kind, field, text)) == Render(parts) + IfGiven(field, text)
  {
    if field != "" {
      RenderAppend(parts, Segment(kind, text));
    } else {
      assert parts + Optional(kind, field, text) == parts;
      assert Render(parts) + "" == Render(parts);
    }
  }

  // ---------------------------------------------------------------------------
  // Decimal numbers

  function DigitChar(d: nat): (c: char)
    requires d < 10
    ensures IsDigit(c)
  {
    ('0' as int + d) as char
  }

  function DigitValue(c: char): (d: nat)
    requires IsDigit(c)
    ensures d < 10
  {
    c as int - '0' as int
  }

  predicate AllDigits(s: string) {
    forall i :: 0 <= i < |s| ==> IsDigit(s[i])
  }

  /** The decimal numeral of `n`, as `${n}` prints a non-negative integer. */
  function NatToString(n: nat): (s: string)
    ensures |s| >= 1 && AllDigits(s)
  {
    (if n < 10 then "" else NatToString(n / 10)) + [DigitChar(n % 10)]
  }

  /** The value of a string of decimal digits. */
  function DigitsValue(s: string): nat
    requires AllDigits(s)
  {
    if s == [] then 0 else DigitsValue(s[..|s| - 1]) * 10 + DigitValue(s[|s| - 1])
  }

  lemma {:induction false} DigitsOfNat(n: nat)
    ensures DigitsValue(NatToString(n)) == n
  {
    var prefix := if n < 10 then "" else NatToString(n / 10);
    var s := NatToString(n);
    assert s == prefix + [DigitChar(n % 10)];
    assert s[..|s| - 1] == prefix;
    assert DigitValue(s[|s| - 1]) == n % 10;
    if n >= 10 {
      DigitsOfNat(n / 10);
    }
    assert DigitsValue(prefix) == n / 10;
  }

  /** Different numbers print differently. */
  lemma NatToStringInjective(m: nat, n: nat)
    requires NatToString(m) == NatToString(n)
    ensures m == n
  {
    DigitsOfNat(m);
    DigitsOfNat(n);
  }

  function TrimStart(s: string): (r: string)
    ensures |r| <= |s| && r == s[|s| - |r|..]
    ensures r == [] || !IsWhitespace(r[0])
  {
    if s != [] && IsWhitespace(s[0]) then TrimStart(s[1..]) else s
  }

  function LeadingDigits(s: string): (r: string)
    ensures AllDigits(r) && |r| <= |s| && r == s[..|r|]
  {
    if s != [] && IsDigit(s[0]) then [s[0]] + LeadingDigits(s[1..]) else ""
  }

  lemma {:induction false} LeadingDigitsOfDigits(s: string)
    requires AllDigits(s)
    ensures LeadingDigits(s) == s
  {
    if s != [] {
      LeadingDigitsOfDigits(s[1..]);
    }
  }

  predicate IsHexDigit(c: char) {
    IsDigit(c) || 'a' <= c <= 'f' || 'A' <= c <= 'F'
  }

  function HexDigitValue(c: char): (d: nat)
    requires IsHexDigit(c)
    ensures d < 16
  {
    if IsDigit(c) then DigitValue(c)
    else if 'a' <= c <= 'f' then c as int - 'a' as int + 10
    else c as int - 'A' as int + 10
  }

  predicate AllHexDigits(s: string) {
    forall i :: 0 <= i < |s| ==> IsHexDigit(s[i])
  }

  /** The value of a string of hexadecimal digits. */
  function HexValue(s: string): nat
    requires AllHexDigits(s)
  {
    if s == [] then 0 else HexValue(s[..|s| - 1]) * 16 + HexDigitValue(s[|s| - 1])
  }

  function LeadingHexDigits(s: string): (r: string)
    ensures AllHexDigits(r) && |r| <= |s| && r == s[..|r|]
  {
    if s != [] && IsHexDigit(s[0]) then [s[0]] + LeadingHexDigits(s[1..]) else ""
  }

  lemma {:induction false} LeadingHexDigitsOfHexDigits(s: string)
    requires AllHexDigits(s)
    ensures LeadingHexDigits(s) == s
  {
    if s != [] {
      LeadingHexDigitsOfHexDigits(s[1..]);
    }
  }

  /** `0x` or `0X`: the prefix that makes `parseInt` without a radix read
      hexadecimal. */
  predicate HasHexPrefix(body: string) {
    |body| >= 2 && body[0] == '0' && (body[1] == 'x' || body[1] == 'X')
  }

  /** The magnitude `parseInt` reads after the sign: hexadecimal digits after
      a `0x` prefix, decimal digits otherwise; `None` when there is no digit. */
  function Magnitude(body: string): Option<nat> {
    if HasHexPrefix(body) then
      var hex := LeadingHexDigits(body[2..]);
      if hex == "" then None else Some(HexValue(hex))
    else
      var digits := LeadingDigits(body);
      if digits == "" then None else Some(DigitsValue(digits))
  }

  /** `Number.parseInt(s)` without a radix: leading whitespace is skipped, an
      optional sign is read, then the longest run of hexadecimal digits after
      a `0x`/`0X` prefix, or of decimal digits otherwise; with no digit the
      result is NaN, here `None`. */
  function ParseInt(s: string): (r: Option<int>)
    ensures s == "" ==> r.None?
    ensures r.Some? && r.value < 0 ==> TrimStart(s) != [] && TrimStart(s)[0] == '-'
  {
    var t := TrimStart(s);
    var negative := t != [] && t[0] == '-';
    var magnitude := Magnitude(SignedBody(t));
    if magnitude.None? then None
    else if negative then Some(-(magnitude.value as int))
    else Some(magnitude.value as int)
  }

  /** What follows an optional sign. */
  function SignedBody(t: string): string {
    if t != [] && (t[0] == '-' || t[0] == '+') then t[1..] else t
  }

  /** A non-empty string of digits reads as its decimal value. */
  lemma ParseIntOfDigits(s: string)
    requires s != "" && AllDigits(s)
    ensures ParseInt(s) == Some(DigitsValue(s))
  {
    assert IsDigit(s[0]) && !IsWhitespace(s[0]);
    var t := TrimStart(s);
    assert t == s;
    assert !(t[0] == '-' || t[0] == '+');
    assert |s| >= 2 ==> IsDigit(s[1]);
    assert !HasHexPrefix(s);
    LeadingDigitsOfDigits(s);
    assert LeadingDigits(t) == s;
  }

  /** `0x` or `0X` followed by hexadecimal digits reads as their hexadecimal
      value, not as the 0 before the `x`. */
  lemma ParseIntOfHex(t: string)
    requires HasHexPrefix(t) && t[2..] != "" && AllHexDigits(t[2..])
    ensures ParseInt(t) == Some(HexValue(t[2..]))
  {
    assert TrimStart(t) == t;
    assert SignedBody(t) == t;
    LeadingHexDigitsOfHexDigits(t[2..]);
  }

  /** `0xA` reads as ten. */
  lemma HexTen()
    ensures ParseInt("0xA") == Some(10)
  {
    assert "0xA"[2..] == "A";
    assert HexValue("A") == 10 by {
      assert "A"[..0] == "";
    }
    ParseIntOfHex("0xA");
  }

  /** `0x7E9` reads as 2025. */
  lemma HexYear()
    ensures ParseInt("0x7E9") == Some(2025)
  {
    assert "0x7E9"[2..] == "7E9";
    assert HexValue("7E9") == 2025 by {
      assert "7E9"[..2] == "7E";
      assert "7E"[..1] == "7";
      assert "7"[..0] == "";
    }
    ParseIntOfHex("0x7E9");
  }

  /** `parseInt` reads a string only through what is left once leading
      white space is trimmed. */
  lemma ParseIntAfterTrim(a: string, b: string)
    requires TrimStart(a) == TrimStart(b)
    ensures ParseInt(a) == ParseInt(b)
  {
  }

  /** `parseInt` skips a leading white-space character. */
  lemma ParseIntSkipsWhitespace(t: string)
    requires t != [] && IsWhitespace(t[0])
    ensures ParseInt(t) == ParseInt(t[1..])
  {
    var rest := t[1..];
    assert TrimStart(t) == TrimStart(rest);
    ParseIntAfterTrim(t, rest);
  }

  lemma ParseTen()
    ensures ParseInt("10") == Some(10)
  {
    assert DigitsValue("10") == 10 by {
      assert "10"[..1] == "1";
      assert "1"[..0] == "";
    }
    ParseIntOfDigits("10");
  }

  /** Leading white space is skipped: a no-break space before `10` reads as 10. */
  lemma SpacedTen()
    ensures ParseInt("\U{00A0}10") == Some(10)
  {
    assert "\U{00A0}10"[1..] == "10";
    ParseIntSkipsWhitespace("\U{00A0}10");
    ParseTen();
  }

  /** Reading back a printed number gives the number. */
  lemma ParseIntOfNatToString(n: nat)
    ensures ParseInt(NatToString(n)) == Some(n)
  {
    ParseIntOfDigits(NatToString(n));
    DigitsOfNat(n);
  }
}
