/** The JavaScript string operations the front-end relies on: `startsWith`,
    `includes`, `split(sep)[0]`, `trim`, `replace(/\s+/g, '_')`,
    `toLowerCase`, `.length` (UTF-16 code units) and number-to-text. */
module Text {

  import opened Wrappers

  /** JavaScript's white space and line terminators, the set matched by `\s`
      and removed by `String.prototype.trim`. */
  predicate IsSpace(c: char)
  {
    || c == ' ' || c == '\t' || c == '\n' || c == '\r'
    || c == '\U{000B}' || c == '\U{000C}' || c == '\U{00A0}' || c == '\U{1680}'
    || ('\U{2000}' <= c <= '\U{200A}')
    || c == '\U{2028}' || c == '\U{2029}' || c == '\U{202F}' || c == '\U{205F}'
    || c == '\U{3000}' || c == '\U{FEFF}'
  }

  predicate NoSpace(s: string)
  {
    forall i :: 0 <= i < |s| ==> !IsSpace(s[i])
  }

  /** `s.startsWith(prefix)` */
  predicate StartsWith(s: string, prefix: string)
  {
    |prefix| <= |s| && s[..|prefix|] == prefix
  }

  /** `s.includes(part)`: `part` occurs at some position of `s`. */
  predicate Contains(s: string, part: string)
    decreases |s|
  {
    StartsWith(s, part) || (|s| > 0 && Contains(s[1..], part))
  }

  /** The occurrence-based reading of `Contains`: it holds exactly when `part`
      occurs at some index of `s`. */
  lemma {:induction false} ContainsAt(s: string, part: string, k: nat)
    requires k + |part| <= |s| && s[k..k + |part|] == part
    ensures Contains(s, part)
    decreases k
  {
    if k == 0 {
      assert s[..|part|] == part;
    } else {
      assert s[1..][k - 1..k - 1 + |part|] == s[k..k + |part|];
      ContainsAt(s[1..], part, k - 1);
    }
  }

  /** Containment is transitive: if `s` contains `t` and `t` contains `u`,
      then `s` contains `u`. */
  lemma {:induction false} ContainsTransitive(s: string, t: string, u: string)
    requires Contains(s, t) && Contains(t, u)
    ensures Contains(s, u)
    decreases |s|
  {
    if StartsWith(s, t) {
      var k := OccurrenceOf(t, u);
      assert s[..|t|] == t;
      assert s[k..k + |u|] == s[..|t|][k..k + |u|];
      ContainsAt(s, u, k);
    } else {
      ContainsTransitive(s[1..], t, u);
      var k := OccurrenceOf(s[1..], u);
      assert s[k + 1..k + 1 + |u|] == s[1..][k..k + |u|];
      ContainsAt(s, u, k + 1);
    }
  }

  /** An index at which a contained `part` occurs. */
  lemma {:induction false} OccurrenceOf(s: string, part: string) returns (k: nat)
    requires Contains(s, part)
    ensures k + |part| <= |s| && s[k..k + |part|] == part
    decreases |s|
  {
    if StartsWith(s, part) {
      k := 0;
    } else {
      var j := OccurrenceOf(s[1..], part);
      assert s[j + 1..j + 1 + |part|] == s[1..][j..j + |part|];
      k := j + 1;
    }
  }

  /** `s.split(sep)[0]`: the text before the first `sep`, or all of `s`. */
  function BeforeFirst(s: string, sep: char): (r: string)
    ensures |r| <= |s| && s[..|r|] == r
    ensures sep !in r
    ensures |r| < |s| ==> s[|r|] == sep
  {
    if s == [] then []
    else if s[0] == sep then []
    else [s[0]] + BeforeFirst(s[1..], sep)
  }

  /** The three facts `BeforeFirst` promises determine it: any prefix free of
      `sep` that ends at the end of `s` or just before a `sep` is that value. */
  lemma BeforeFirstUnique(s: string, sep: char, r: string)
    requires |r| <= |s| && s[..|r|] == r
    requires sep !in r
    requires |r| < |s| ==> s[|r|] == sep
    ensures r == BeforeFirst(s, sep)
  {
  }

  /** `email.split('@')[0]` */
  function EmailPrefix(email: string): string
  {
    BeforeFirst(email, '@')
  }

  /** Number of white-space characters at the start of `s`. */
  function LeadingSpaces(s: string): (n: nat)
    ensures n <= |s|
    ensures forall i :: 0 <= i < n ==> IsSpace(s[i])
    ensures n < |s| ==> !IsSpace(s[n])
  {
    if s == [] || !IsSpace(s[0]) then 0 else 1 + LeadingSpaces(s[1..])
  }

  /** Number of white-space characters at the end of `s`. */
  function TrailingSpaces(s: string): (n: nat)
    ensures n <= |s|
    ensures forall i :: |s| - n <= i < |s| ==> IsSpace(s[i])
    ensures n < |s| ==> !IsSpace(s[|s| - n - 1])
  {
    if s == [] || !IsSpace(s[|s| - 1]) then 0 else 1 + TrailingSpaces(s[..|s| - 1])
  }

  /** `s.trim()` */
  function Trim(s: string): (r: string)
    ensures |r| <= |s|
    ensures r != [] ==> !IsSpace(r[0]) && !IsSpace(r[|r| - 1])
  {
    var lead := LeadingSpaces(s);
    s[lead..|s| - TrailingSpaces(s[lead..])]
  }

  /** What `trim` removes is white space at both ends and what it keeps starts
      and ends with a non-space character; it is empty exactly when `s` is all
      white space. */
  lemma TrimSpec(s: string)
    ensures var lead := LeadingSpaces(s);
      && lead + |Trim(s)| <= |s|
      && Trim(s) == s[lead..lead + |Trim(s)|]
      && (forall i :: 0 <= i < lead ==> IsSpace(s[i]))
      && (forall i :: lead + |Trim(s)| <= i < |s| ==> IsSpace(s[i]))
      && (Trim(s) != [] ==> !IsSpace(Trim(s)[0]) && !IsSpace(Trim(s)[|Trim(s)| - 1]))
    ensures Trim(s) == [] <==> forall i :: 0 <= i < |s| ==> IsSpace(s[i])
  {
    TrimTrailing(s);
    TrimEnds(s);
    TrimEmpty(s);
  }

  /** Everything after the kept part is white space. */
  lemma TrimTrailing(s: string)
    ensures forall i :: LeadingSpaces(s) + |Trim(s)| <= i < |s| ==> IsSpace(s[i])
  {
    var lead := LeadingSpaces(s);
    var t := s[lead..];
    forall i | lead + |Trim(s)| <= i < |s|
      ensures IsSpace(s[i])
    {
      assert s[i] == t[i - lead];
    }
  }

  /** A non-empty trimmed text starts and ends with a non-space character. */
  lemma TrimEnds(s: string)
    ensures Trim(s) != [] ==> !IsSpace(Trim(s)[0]) && !IsSpace(Trim(s)[|Trim(s)| - 1])
  {
    var lead := LeadingSpaces(s);
    var t := s[lead..];
    var trail := TrailingSpaces(t);
    var r := Trim(s);
    if r != [] {
      assert r[0] == s[lead];
      assert r[|r| - 1] == t[|t| - trail - 1];
    }
  }

  /** Trimming leaves nothing exactly when the text is all white space. */
  lemma TrimEmpty(s: string)
    ensures Trim(s) == [] <==> forall i :: 0 <= i < |s| ==> IsSpace(s[i])
  {
  }

  /** Trimming twice is trimming once. */
  lemma TrimIdempotent(s: string)
    ensures Trim(Trim(s)) == Trim(s)
  {
    var r := Trim(s);
    TrimSpec(s);
    if r != [] {
      assert LeadingSpaces(r) == 0;
      assert TrailingSpaces(r) == 0;
      assert r[0..] == r;
    }
  }

  /** `s.replace(/\s+/g, '_')`: every maximal run of white space becomes a
      single underscore. */
  function CollapseSpaces(s: string): (r: string)
    ensures |r| <= |s|
    ensures NoSpace(r)
    decreases |s|
  {
    if s == [] then []
    else if IsSpace(s[0]) then
      var n := LeadingSpaces(s);
      ['_'] + CollapseSpaces(s[n..])
    else [s[0]] + CollapseSpaces(s[1..])
  }

  /** A string without white space is left as it is. */
  lemma {:induction false} CollapseSpacesNoSpace(s: string)
    requires NoSpace(s)
    ensures CollapseSpaces(s) == s
    decreases |s|
  {
    if s != [] {
      assert NoSpace(s[1..]);
      CollapseSpacesNoSpace(s[1..]);
    }
  }

  /** Characters other than white space pass through in order: a prefix
      without white space is kept as it is in front of the rest. */
  lemma {:induction false} CollapseSpacesKeepsWord(x: string, y: string)
    requires NoSpace(x)
    ensures CollapseSpaces(x + y) == x + CollapseSpaces(y)
    decreases |x|
  {
    if x == [] {
      assert x + y == y;
    } else {
      assert (x + y)[0] == x[0];
      assert (x + y)[1..] == x[1..] + y;
      assert NoSpace(x[1..]);
      CollapseSpacesKeepsWord(x[1..], y);
    }
  }

  /** A maximal run of white space, however long, becomes one underscore. */
  lemma CollapseSpacesRun(w: string, y: string)
    requires w != [] && forall i :: 0 <= i < |w| ==> IsSpace(w[i])
    requires y == [] || !IsSpace(y[0])
    ensures CollapseSpaces(w + y) == "_" + CollapseSpaces(y)
  {
    LeadingSpacesRun(w, y);
    assert (w + y)[0] == w[0];
    assert (w + y)[|w|..] == y;
  }

  /** A run of white space followed by a non-space character is exactly the
      leading white space. */
  lemma {:induction false} LeadingSpacesRun(w: string, y: string)
    requires forall i :: 0 <= i < |w| ==> IsSpace(w[i])
    requires y == [] || !IsSpace(y[0])
    ensures LeadingSpaces(w + y) == |w|
    decreases |w|
  {
    if w == [] {
      assert w + y == y;
    } else {
      assert (w + y)[1..] == w[1..] + y;
      LeadingSpacesRun(w[1..], y);
    }
  }

  predicate IsUpper(c: char)
  {
    ('A' <= c <= 'Z') || ('\U{00C0}' <= c <= '\U{00DE}' && c != '\U{00D7}')
  }

  /** Lower-case mapping of one character (ASCII and Latin-1 letters). */
  function LowerChar(c: char): (d: char)
    ensures !IsUpper(d)
    ensures IsSpace(d) <==> IsSpace(c)
    ensures !IsUpper(c) ==> d == c
    ensures IsUpper(c) ==> d as int == c as int + 32
  {
    if IsUpper(c) then (c as int + 32) as char else c
  }

  /** `s.toLowerCase()` */
  function ToLower(s: string): (r: string)
    ensures |r| == |s|
    ensures forall i :: 0 <= i < |r| ==> r[i] == LowerChar(s[i])
    ensures forall i :: 0 <= i < |r| ==> !IsUpper(r[i]) && (IsSpace(r[i]) <==> IsSpace(s[i]))
  {
    seq(|s|, i requires 0 <= i < |s| => LowerChar(s[i]))
  }

  /** Lower-casing works character by character, so it distributes over
      concatenation. */
  lemma ToLowerAppend(a: string, b: string)
    ensures ToLower(a + b) == ToLower(a) + ToLower(b)
  {
  }

  /** `.length` of a JavaScript string: characters outside the Basic
      Multilingual Plane take two UTF-16 code units. */
  function Utf16Length(s: string): (n: nat)
    ensures |s| <= n <= 2 * |s|
    ensures |s| == 1 ==> n == (if s[0] as int > 0xFFFF then 2 else 1)
  {
    if s == [] then 0
    else (if s[0] as int > 0xFFFF then 2 else 1) + Utf16Length(s[1..])
  }

  /** On text made of Basic Multilingual Plane characters, `.length` is the
      number of characters. */
  lemma {:induction false} Utf16LengthBmp(s: string)
    requires forall i :: 0 <= i < |s| ==> s[i] as int <= 0xFFFF
    ensures Utf16Length(s) == |s|
  {
    if s != [] {
      Utf16LengthBmp(s[1..]);
    }
  }

  /** Text made only of characters outside the Basic Multilingual Plane
      takes two code units per character. */
  lemma {:induction false} Utf16LengthAstral(s: string)
    requires forall i :: 0 <= i < |s| ==> s[i] as int > 0xFFFF
    ensures Utf16Length(s) == 2 * |s|
  {
    if s != [] {
      Utf16LengthAstral(s[1..]);
    }
  }

  /** `.length` adds up over concatenation. */
  lemma {:induction false} Utf16LengthAppend(a: string, b: string)
    ensures Utf16Length(a + b) == Utf16Length(a) + Utf16Length(b)
    decreases |a|
  {
    if a == [] {
      assert a + b == b;
    } else {
      assert (a + b)[1..] == a[1..] + b;
      Utf16LengthAppend(a[1..], b);
    }
  }

  function Digit(d: nat): (c: char)
    requires d < 10
    ensures '0' <= c <= '9'
  {
    ['0', '1', '2', '3', '4', '5', '6', '7', '8', '9'][d]
  }

  /** Decimal text of a natural number, as `String(n)` gives it. */
  function NatToString(n: nat): (r: string)
    ensures r != []
    ensures forall i :: 0 <= i < |r| ==> '0' <= r[i] <= '9'
    ensures n > 0 ==> r[0] != '0'
  {
    if n < 10 then [Digit(n)] else NatToString(n / 10) + [Digit(n % 10)]
  }

  /** Decimal text of an integer, with a leading '-' when negative. */
  function IntToString(n: int): string
  {
    if n < 0 then "-" + NatToString(-n) else NatToString(n)
  }

  /** The value of a string of decimal digits. */
  function DigitsValue(s: string): nat
    requires forall i :: 0 <= i < |s| ==> '0' <= s[i] <= '9'
  {
    if s == [] then 0
    else 10 * DigitsValue(s[..|s| - 1]) + ((s[|s| - 1] as int) - ('0' as int))
  }

  /** Reading back the decimal text gives the number. */
  lemma {:induction false} NatToStringRoundTrip(n: nat)
    ensures DigitsValue(NatToString(n)) == n
  {
    if n >= 10 {
      var r := NatToString(n);
      assert r[..|r| - 1] == NatToString(n / 10);
      NatToStringRoundTrip(n / 10);
    }
  }

  /** Length of the run of decimal digits at the start of `s`. */
  function DigitRun(s: string): (n: nat)
    ensures n <= |s|
    ensures forall i :: 0 <= i < n ==> '0' <= s[i] <= '9'
    ensures n < |s| ==> !('0' <= s[n] <= '9')
  {
    if s == [] || !('0' <= s[0] <= '9') then 0 else 1 + DigitRun(s[1..])
  }

  /** The value of the run of digits at the start of `s`; None when `s`
      does not start with a digit. */
  function DigitRunValue(s: string): (r: Option<nat>)
    ensures r.None? <==> DigitRun(s) == 0
  {
    var n := DigitRun(s);
    if n == 0 then None else Some(DigitsValue(s[..n]))
  }

  /** `parseInt(s)` for decimal text: leading white space is skipped, one
      sign is accepted, and the longest run of digits that follows is read;
      None (NaN) when there is no digit. */
  function ParseInt(s: string): (r: Option<int>)
    ensures (forall i :: 0 <= i < |s| ==> !('0' <= s[i] <= '9')) ==> r.None?
  {
    var t := s[LeadingSpaces(s)..];
    var body := if |t| > 0 && (t[0] == '-' || t[0] == '+') then t[1..] else t;
    match DigitRunValue(body)
    case None => None
    case Some(v) =>
      var value: int := if |t| > 0 && t[0] == '-' then 0 - (v as int) else v;
      Some(value)
  }

  /** The digit run of a number's decimal text is the whole text, and it
      reads back as the number. */
  lemma NatTextRunValue(m: nat)
    ensures DigitRunValue(NatToString(m)) == Some(m)
  {
    var d := NatToString(m);
    DigitRunAll(d);
    assert d[..|d|] == d;
    NatToStringRoundTrip(m);
  }

  /** Reading back the decimal text of an integer gives the integer. */
  lemma ParseIntRoundTrip(n: int)
    ensures ParseInt(IntToString(n)) == Some(n)
  {
    if n < 0 {
      var m: nat := -n;
      assert IntToString(n) == "-" + NatToString(m);
      ParseIntNegative(m);
    } else {
      assert IntToString(n) == NatToString(n);
      ParseIntDigits(n);
    }
  }

  /** The decimal text of a natural number parses back to it. */
  lemma ParseIntDigits(m: nat)
    ensures ParseInt(NatToString(m)) == Some(m)
  {
    var d := NatToString(m);
    assert !IsSpace(d[0]) && d[0] != '-' && d[0] != '+';
    assert LeadingSpaces(d) == 0;
    assert d[0..] == d;
    NatTextRunValue(m);
  }

  /** A minus sign before the decimal text of a natural number parses to
      its negation. */
  lemma ParseIntNegative(m: nat)
    ensures ParseInt("-" + NatToString(m)) == Some(0 - m)
  {
    var d := NatToString(m);
    var s := "-" + d;
    assert s[0] == '-';
    assert LeadingSpaces(s) == 0;
    assert s[0..] == s;
    assert s[1..] == d;
    NatTextRunValue(m);
  }

  /** A text made of digits only is one run. */
  lemma {:induction false} DigitRunAll(s: string)
    requires forall i :: 0 <= i < |s| ==> '0' <= s[i] <= '9'
    ensures DigitRun(s) == |s|
    decreases |s|
  {
    if s != [] {
      DigitRunAll(s[1..]);
    }
  }
}
