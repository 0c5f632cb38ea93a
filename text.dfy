/** String operations the client and the service rely on: trimming (JavaScript's and Python's), substring search, decimal
    printing and JavaScript's parseInt, splitting on spaces, ASCII upper-casing and prefixes. */
module Text {
  import opened Wrappers

  /** Whose whitespace a trimming function removes: JavaScript's (`trim`, `parseInt`) or Python's
      (`str.strip`). Both remove the ASCII controls TAB to CR, the space separators and the line and
      paragraph separators; only JavaScript removes U+FEFF, and only Python removes U+001C to U+001F
      and U+0085. */
  datatype Whitespace = Js | Py

  predicate IsSpace(c: char, ws: Whitespace) {
    c == ' ' || '\t' <= c <= '\r' || c == '\U{00A0}' || c == '\U{1680}' || '\U{2000}' <= c <= '\U{200A}' ||
    c == '\U{2028}' || c == '\U{2029}' || c == '\U{202F}' || c == '\U{205F}' || c == '\U{3000}' ||
    (ws == Js && c == '\U{FEFF}') ||
    (ws == Py && ('\U{001C}' <= c <= '\U{001F}' || c == '\U{0085}'))
  }

  /** `s` holds no character that JavaScript counts as whitespace and Python does not. */
  predicate NoJsOnlySpace(s: string) {
    forall i :: 0 <= i < |s| ==> s[i] != '\U{FEFF}'
  }

  predicate AllSpace(s: string, ws: Whitespace) {
    forall i :: 0 <= i < |s| ==> IsSpace(s[i], ws)
  }

  /** Neither end of `s` is whitespace. */
  predicate Trimmed(s: string, ws: Whitespace) {
    s == [] || (!IsSpace(s[0], ws) && !IsSpace(s[|s| - 1], ws))
  }

  /** How many whitespace characters `s` starts with. */
  function LeadingSpaces(s: string, ws: Whitespace): (n: nat)
    ensures n <= |s|
    ensures forall k :: 0 <= k < n ==> IsSpace(s[k], ws)
    ensures n < |s| ==> !IsSpace(s[n], ws)
  {
    if |s| > 0 && IsSpace(s[0], ws) then
      var n := 1 + LeadingSpaces(s[1..], ws);
      assert forall k :: 1 <= k < n ==> s[k] == s[1..][k - 1];
      n
    else 0
  }

  /** `s` without its leading JavaScript whitespace, as `parseInt` skips it. */
  function TrimStart(s: string): string {
    s[LeadingSpaces(s, Js)..]
  }

  /** `s.trim()` in JavaScript (`ws == Js`), `s.strip()` in Python (`ws == Py`): whitespace is
      dropped from either end until both ends are other characters or nothing is left. */
  function Trim(s: string, ws: Whitespace): (r: string)
    ensures |r| <= |s|
    ensures r == [] <==> AllSpace(s, ws)
    ensures Trimmed(r, ws)
    decreases |s|
  {
    if s == [] then []
    else if IsSpace(s[0], ws) then
      assert forall k :: 1 <= k < |s| ==> s[k] == s[1..][k - 1];
      Trim(s[1..], ws)
    else if IsSpace(s[|s| - 1], ws) then
      assert s[..|s| - 1][0] == s[0];
      Trim(s[..|s| - 1], ws)
    else s
  }

  /** `s` is whitespace, then its trimmed text, then whitespace. */
  lemma {:induction false} TrimSplits(s: string, ws: Whitespace) returns (a: string, b: string)
    ensures AllSpace(a, ws) && AllSpace(b, ws)
    ensures s == a + Trim(s, ws) + b
    decreases |s|
  {
    if s == [] {
      a, b := [], [];
    } else if IsSpace(s[0], ws) {
      var a', b' := TrimSplits(s[1..], ws);
      AllSpaceConcat([s[0]], a', ws);
      assert s == [s[0]] + s[1..] && Trim(s, ws) == Trim(s[1..], ws);
      ConsRegroup([s[0]], a', Trim(s, ws), b');
      a, b := [s[0]] + a', b';
    } else if IsSpace(s[|s| - 1], ws) {
      var a', b' := TrimSplits(s[..|s| - 1], ws);
      AllSpaceConcat(b', [s[|s| - 1]], ws);
      assert s == s[..|s| - 1] + [s[|s| - 1]] && Trim(s, ws) == Trim(s[..|s| - 1], ws);
      SnocRegroup(a', Trim(s, ws), b', [s[|s| - 1]]);
      a, b := a', b' + [s[|s| - 1]];
    } else {
      a, b := [], [];
    }
  }

  /** The trimmed text is determined by any split of `s` into whitespace, a non-empty text whose
      ends are not whitespace, and whitespace. */
  lemma {:induction false} TrimOfPadded(a: string, r: string, b: string, ws: Whitespace)
    requires AllSpace(a, ws) && AllSpace(b, ws)
    requires r != [] && Trimmed(r, ws)
    ensures Trim(a + r + b, ws) == r
    decreases |a| + |b|
  {
    var s := a + r + b;
    if a != [] {
      assert s[0] == a[0];
      assert s[1..] == a[1..] + r + b;
      assert forall k :: 0 <= k < |a| - 1 ==> a[1..][k] == a[k + 1];
      TrimOfPadded(a[1..], r, b, ws);
    } else if b != [] {
      assert s[0] == r[0] && s[|s| - 1] == b[|b| - 1];
      assert s[..|s| - 1] == a + r + b[..|b| - 1];
      assert forall k :: 0 <= k < |b| - 1 ==> b[..|b| - 1][k] == b[k];
      TrimOfPadded(a, r, b[..|b| - 1], ws);
    } else {
      assert s == r;
    }
  }

  /** Trimming a trimmed string changes nothing. */
  lemma TrimIdempotent(s: string, ws: Whitespace)
    ensures Trim(Trim(s, ws), ws) == Trim(s, ws)
  {
    var r := Trim(s, ws);
    if r != [] {
      assert r == [] + r + [];
      TrimOfPadded([], r, [], ws);
    }
  }

  lemma AllSpaceConcat(a: string, b: string, ws: Whitespace)
    requires AllSpace(a, ws) && AllSpace(b, ws)
    ensures AllSpace(a + b, ws)
  {
    assert forall k :: 0 <= k < |a| ==> (a + b)[k] == a[k];
    assert forall k :: |a| <= k < |a| + |b| ==> (a + b)[k] == b[k - |a|];
  }

  /** Apart from U+FEFF, every JavaScript whitespace character is Python whitespace as well. */
  lemma JsSpaceIsPySpace(s: string)
    requires AllSpace(s, Js) && NoJsOnlySpace(s)
    ensures AllSpace(s, Py)
  {
  }

  /** Without the precondition of `StripAfterTrim` the two differ: `trim` removes a leading U+FEFF
      that `strip` keeps. */
  lemma ByteOrderMarkTrimmedOnlyByJs()
    ensures Trim("\U{FEFF}a", Js) == "a"
    ensures Trim("\U{FEFF}a", Py) == "\U{FEFF}a"
  {
    JsTrimsByteOrderMark();
    PyKeepsByteOrderMark();
  }

  lemma JsTrimsByteOrderMark()
    ensures Trim("\U{FEFF}a", Js) == "a"
  {
    assert IsSpace('\U{FEFF}', Js) && !IsSpace('a', Js);
    assert "\U{FEFF}a" == "\U{FEFF}" + "a" + "";
    TrimOfPadded("\U{FEFF}", "a", "", Js);
  }

  lemma PyKeepsByteOrderMark()
    ensures Trim("\U{FEFF}a", Py) == "\U{FEFF}a"
  {
    assert !IsSpace('\U{FEFF}', Py) && !IsSpace('a', Py);
    assert "\U{FEFF}a" == "" + "\U{FEFF}a" + "";
    TrimOfPadded("", "\U{FEFF}a", "", Py);
  }

  /** Python whitespace around JavaScript's trimmed text that is itself all Python whitespace. */
  lemma StripOfSpacedSpace(s: string, a: string, t: string, b: string)
    requires s == a + t + b
    requires AllSpace(a, Py) && AllSpace(t, Py) && AllSpace(b, Py)
    ensures Trim(s, Py) == []
  {
    AllSpaceConcat(a, t, Py);
    AllSpaceConcat(a + t, b, Py);
  }

  /** Python's `strip` of JavaScript's `trim` is Python's `strip` when the text holds no U+FEFF:
      the text `trim` keeps loses further Python-only whitespace at its ends, and nothing else. */
  lemma {:induction false} StripAfterTrim(s: string)
    requires NoJsOnlySpace(s)
    ensures Trim(Trim(s, Js), Py) == Trim(s, Py)
  {
    var t := Trim(s, Js);
    var a1, b1 := TrimSplits(s, Js);
    assert forall k :: 0 <= k < |a1| ==> a1[k] == s[k];
    assert forall k :: 0 <= k < |b1| ==> b1[k] == s[|a1| + |t| + k];
    JsSpaceIsPySpace(a1);
    JsSpaceIsPySpace(b1);
    var r := Trim(t, Py);
    if r == [] {
      StripOfSpacedSpace(s, a1, t, b1);
    } else {
      StripOfSpacedText(s, a1, t, b1);
    }
  }

  /** Python whitespace around JavaScript's trimmed text that has some other character. */
  lemma StripOfSpacedText(s: string, a1: string, t: string, b1: string)
    requires s == a1 + t + b1
    requires AllSpace(a1, Py) && AllSpace(b1, Py)
    requires Trim(t, Py) != []
    ensures Trim(s, Py) == Trim(t, Py)
  {
    var r := Trim(t, Py);
    var a2, b2 := TrimSplits(t, Py);
    AllSpaceConcat(a1, a2, Py);
    AllSpaceConcat(b2, b1, Py);
    Regroup(a1, a2, r, b2, b1);
    TrimOfPadded(a1 + a2, r, b2 + b1, Py);
  }

  lemma ConsRegroup<T>(x: seq<T>, a: seq<T>, t: seq<T>, b: seq<T>)
    ensures x + (a + t + b) == (x + a) + t + b
  {
  }

  lemma SnocRegroup<T>(a: seq<T>, t: seq<T>, b: seq<T>, y: seq<T>)
    ensures (a + t + b) + y == a + t + (b + y)
  {
  }

  lemma Regroup<T>(a1: seq<T>, a2: seq<T>, r: seq<T>, b2: seq<T>, b1: seq<T>)
    ensures a1 + (a2 + r + b2) + b1 == (a1 + a2) + r + (b2 + b1)
  {
  }

  /** `sub` occurs in `s` starting at offset `i`. */
  predicate OccursAt(s: string, sub: string, i: int) {
    0 <= i <= |s| - |sub| && s[i..i + |sub|] == sub
  }

  /** `s.includes(sub)`: `sub` occurs in `s` at some offset. */
  function Contains(s: string, sub: string): (r: bool)
    ensures r <==> exists i :: OccursAt(s, sub, i)
    decreases |s|
  {
    if |sub| > |s| then false
    else if s[..|sub|] == sub then assert OccursAt(s, sub, 0); true
    else
      var r := Contains(s[1..], sub);
      assert forall i :: OccursAt(s[1..], sub, i) <==> OccursAt(s, sub, i + 1);
      assert !OccursAt(s, sub, 0);
      assert forall i :: OccursAt(s, sub, i) ==> i == 0 || OccursAt(s[1..], sub, i - 1);
      r
  }

  /** A string that contains `sub` still does after something is put in front of it. */
  lemma {:induction false} ContainsAfterPrefix(p: string, s: string, sub: string)
    requires Contains(s, sub)
    ensures Contains(p + s, sub)
  {
    var i :| OccursAt(s, sub, i);
    assert (p + s)[|p| + i..|p| + i + |sub|] == sub;
    assert OccursAt(p + s, sub, |p| + i);
  }

  predicate IsDigit(c: char) {
    '0' <= c <= '9'
  }

  predicate AllDigits(s: string) {
    forall i :: 0 <= i < |s| ==> IsDigit(s[i])
  }

  function DigitChar(d: nat): (c: char)
    requires d < 10
    ensures IsDigit(c) && c as int - '0' as int == d
  {
    ('0' as int + d) as char
  }

  function DigitValue(c: char): nat
    requires IsDigit(c)
  {
    c as int - '0' as int
  }

  /** The decimal text of `n`, as a template literal prints a non-negative integer: at least one
      digit, and no leading zero unless `n` is zero. */
  function NatToString(n: nat): (r: string)
    ensures |r| >= 1 && AllDigits(r)
    ensures r[0] == '0' ==> n == 0
  {
    if n < 10 then [DigitChar(n)] else NatToString(n / 10) + [DigitChar(n % 10)]
  }

  /** The decimal text of an integer, with a leading `-` when it is negative. */
  function IntToString(i: int): (r: string)
    ensures |r| >= 1
    ensures i >= 0 ==> r == NatToString(i)
    ensures i < 0 ==> r[0] == '-'
  {
    if i < 0 then "-" + NatToString(-i) else NatToString(i)
  }

  /** The number a run of decimal digits denotes, most significant digit first. */
  function DigitsValue(s: string): nat
    requires AllDigits(s)
  {
    if s == [] then 0 else DigitsValue(s[..|s| - 1]) * 10 + DigitValue(s[|s| - 1])
  }

  /** Reading the printed digits back gives the number that was printed. */
  lemma {:induction false} DigitsValueOfNatToString(n: nat)
    ensures DigitsValue(NatToString(n)) == n
  {
    if n >= 10 {
      var r := NatToString(n);
      assert r[..|r| - 1] == NatToString(n / 10);
      DigitsValueOfNatToString(n / 10);
    }
  }

  /** The longest prefix of `s` made of decimal digits. */
  function LeadingDigits(s: string): (r: string)
    ensures r <= s && AllDigits(r)
    ensures |r| < |s| ==> !IsDigit(s[|r|])
  {
    if |s| > 0 && IsDigit(s[0]) then [s[0]] + LeadingDigits(s[1..]) else []
  }

  lemma {:induction false} LeadingDigitsOfDigits(d: string, suffix: string)
    requires AllDigits(d)
    requires suffix == [] || !IsDigit(suffix[0])
    ensures LeadingDigits(d + suffix) == d
  {
    if d != [] {
      assert (d + suffix)[1..] == d[1..] + suffix;
      LeadingDigitsOfDigits(d[1..], suffix);
    } else {
      assert d + suffix == suffix;
    }
  }

  /** JavaScript's `parseInt(s)` on decimal text: leading whitespace is skipped, an optional sign is
      read, then the longest run of digits; None stands for NaN (no digit at all). */
  function ParseInt(s: string): Option<int> {
    var t := TrimStart(s);
    var body := if |t| > 0 && (t[0] == '-' || t[0] == '+') then t[1..] else t;
    var digits := LeadingDigits(body);
    var v: int := DigitsValue(digits);
    if digits == [] then None else Some(if t[0] == '-' then -v else v)
  }

  /** `parseInt` reads back a printed natural number from the front of a label, whatever non-digit
      text follows it. */
  lemma DigitNotSpace(c: char, ws: Whitespace)
    requires IsDigit(c)
    ensures !IsSpace(c, ws)
  {
  }

  lemma {:induction false} ParseIntOfNatToString(n: nat, suffix: string)
    requires suffix == [] || !IsDigit(suffix[0])
    ensures ParseInt(NatToString(n) + suffix) == Some(n)
  {
    var d := NatToString(n);
    var s := d + suffix;
    assert s[0] == d[0] && IsDigit(s[0]);
    DigitNotSpace(s[0], Js);
    assert LeadingSpaces(s, Js) == 0;
    LeadingDigitsOfDigits(d, suffix);
    DigitsValueOfNatToString(n);
    assert LeadingDigits(s) == d && DigitsValue(d) == n;
  }

  function UpperChar(c: char): char {
    if 'a' <= c <= 'z' then (c as int - 32) as char else c
  }

  /** `s.toUpperCase()` on ASCII letters. */
  function ToUpper(s: string): string {
    if s == [] then [] else [UpperChar(s[0])] + ToUpper(s[1..])
  }

  /** `s.split(' ')`: the segments between single spaces, empty segments included. No segment holds
      a space; joining them with spaces gives `s` back (JoinSplit). */
  function Split(s: string): (parts: seq<string>)
    ensures |parts| >= 1
    ensures forall k :: 0 <= k < |parts| ==> ' ' !in parts[k]
  {
    if s == [] then [""]
    else if s[0] == ' ' then [""] + Split(s[1..])
    else
      var rest := Split(s[1..]);
      [[s[0]] + rest[0]] + rest[1..]
  }

  /** `parts.join(' ')`. */
  function Join(parts: seq<string>): string {
    if |parts| == 0 then ""
    else if |parts| == 1 then parts[0]
    else parts[0] + " " + Join(parts[1..])
  }

  lemma {:induction false} JoinSplit(s: string)
    ensures Join(Split(s)) == s
  {
    if s != [] {
      var p := Split(s[1..]);
      JoinSplit(s[1..]);
      if s[0] == ' ' {
        assert Split(s) == [""] + p;
        assert (([""] + p)[1..]) == p;
      } else {
        var parts := Split(s);
        assert parts == [[s[0]] + p[0]] + p[1..];
        if |p| == 1 {
          assert Join(parts) == [s[0]] + p[0];
        } else {
          assert parts[1..] == p[1..];
          assert Join(p) == p[0] + " " + Join(p[1..]);
        }
        assert s == [s[0]] + s[1..];
      }
    }
  }

  /** `parts.map(w => w[0]).join('')`: the first character of every segment; an empty segment gives
      `undefined`, which `join` prints as nothing. */
  function FirstChars(parts: seq<string>): string {
    if parts == [] then "" else (if parts[0] == "" then "" else [parts[0][0]]) + FirstChars(parts[1..])
  }

  /** Reference definition of initials: every character of `s` that is not a space and comes first
      or right after a space. */
  function WordStarts(s: string, afterSpace: bool): string {
    if s == [] then ""
    else (if s[0] != ' ' && afterSpace then [s[0]] else "") + WordStarts(s[1..], s[0] == ' ')
  }

  /** The first characters of the split segments are exactly the word starts: repeated, leading and
      trailing spaces contribute nothing. */
  lemma {:induction false} FirstCharsOfSplit(s: string)
    ensures FirstChars(Split(s)) == WordStarts(s, true)
    ensures FirstChars(Split(s)[1..]) == WordStarts(s, false)
  {
    if s != [] {
      var p := Split(s[1..]);
      FirstCharsOfSplit(s[1..]);
      if s[0] == ' ' {
        assert Split(s) == [""] + p;
        assert Split(s)[1..] == p;
      } else {
        assert Split(s) == [[s[0]] + p[0]] + p[1..];
        assert Split(s)[1..] == p[1..];
      }
    }
  }

  /** `s[:n]` in Python and `s.slice(0, n)` in JavaScript for n >= 0. */
  function Prefix<T>(s: seq<T>, n: nat): (r: seq<T>)
    ensures r <= s
    ensures |r| == if |s| < n then |s| else n
  {
    if |s| < n then s else s[..n]
  }
}
