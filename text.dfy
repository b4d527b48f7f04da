/** The string operations `main.py` relies on: `str(int)`, `str.split(sep)`,
    slicing off the tail of a string, and the heading of an HTML error page. */
module Text {
  import opened Wrappers

  predicate IsDigit(c: char) {
    '0' <= c <= '9'
  }

  function DigitChar(d: int): (c: char)
    requires 0 <= d < 10
    ensures IsDigit(c)
  {
    ('0' as int + d) as char
  }

  /** Decimal digits of a natural number, most significant first, no leading zero. */
  function NatToString(n: nat): (s: string)
    ensures |s| >= 1
    ensures forall i :: 0 <= i < |s| ==> IsDigit(s[i])
    ensures |s| > 1 ==> s[0] != '0'
    decreases n
  {
    if n < 10 then [DigitChar(n)] else NatToString(n / 10) + [DigitChar(n % 10)]
  }

  /** `str(n)` for a Python int. */
  function IntToString(n: int): (s: string)
    ensures |s| >= 1
  {
    if n < 0 then "-" + NatToString(-n) else NatToString(n)
  }

  /** The value of a string of decimal digits. */
  function ParseDigits(s: string): int
    requires forall i :: 0 <= i < |s| ==> IsDigit(s[i])
  {
    if s == [] then 0 else ParseDigits(s[..|s| - 1]) * 10 + (s[|s| - 1] as int - '0' as int)
  }

  /** The inverse of `IntToString`: `int(str(n)) == n`. */
  function ParseInt(s: string): Option<int> {
    if |s| > 1 && s[0] == '-' && forall i :: 1 <= i < |s| ==> IsDigit(s[i]) then Some(-ParseDigits(s[1..]))
    else if |s| > 0 && forall i :: 0 <= i < |s| ==> IsDigit(s[i]) then Some(ParseDigits(s))
    else None
  }

  lemma {:induction false} ParseNatToString(n: nat)
    ensures ParseDigits(NatToString(n)) == n
    decreases n
  {
    if n >= 10 {
      var s := NatToString(n);
      ParseNatToString(n / 10);
      assert s[..|s| - 1] == NatToString(n / 10);
    }
  }

  /** Reading back the decimal text of any integer gives the integer. */
  lemma ParseIntToString(n: int)
    ensures ParseInt(IntToString(n)) == Some(n)
  {
    if n < 0 {
      ParseNatToString(-n);
      assert IntToString(n)[1..] == NatToString(-n);
    } else {
      ParseNatToString(n);
    }
  }

  predicate OccursAt(s: string, sep: string, i: int) {
    0 <= i && i + |sep| <= |s| && s[i..i + |sep|] == sep
  }

  predicate Contains(s: string, sep: string) {
    exists i :: 0 <= i <= |s| && OccursAt(s, sep, i)
  }

  /** The index of the leftmost occurrence of a non-empty `sep` in `s`. */
  function FindFirst(s: string, sep: string): (r: Option<nat>)
    requires |sep| > 0
    ensures r.Some? ==> OccursAt(s, sep, r.value)
    ensures r.Some? ==> forall j :: 0 <= j < r.value ==> !OccursAt(s, sep, j)
    ensures r.None? ==> !Contains(s, sep)
    decreases |s|
  {
    if |s| < |sep| then None
    else if s[..|sep|] == sep then Some(0)
    else match FindFirst(s[1..], sep)
      case None =>
        assert forall j :: OccursAt(s, sep, j) ==> j == 0 || OccursAt(s[1..], sep, j - 1);
        None
      case Some(i) =>
        assert OccursAt(s[1..], sep, i) ==> s[i + 1..i + 1 + |sep|] == s[1..][i..i + |sep|];
        assert forall j :: 0 < j <= i && OccursAt(s, sep, j) ==> OccursAt(s[1..], sep, j - 1);
        Some(i + 1)
  }

  lemma FindFirstIs(s: string, sep: string, i: nat)
    requires |sep| > 0 && OccursAt(s, sep, i)
    requires forall j :: 0 <= j < i ==> !OccursAt(s, sep, j)
    ensures FindFirst(s, sep) == Some(i)
  {
  }

  /** `sep.join(parts)`. */
  function Join(parts: seq<string>, sep: string): string {
    if |parts| == 0 then ""
    else if |parts| == 1 then parts[0]
    else parts[0] + sep + Join(parts[1..], sep)
  }

  /** A prefix of `s` that ends before the first occurrence of `sep` has none. */
  lemma PrefixBeforeFirst(s: string, sep: string, i: nat)
    requires |sep| > 0 && i <= |s|
    requires forall j :: 0 <= j < i ==> !OccursAt(s, sep, j)
    ensures !Contains(s[..i], sep)
  {
    forall j | OccursAt(s[..i], sep, j)
      ensures false
    {
      assert s[..i][j..j + |sep|] == s[j..j + |sep|];
      assert OccursAt(s, sep, j);
    }
  }

  /** `s.split(sep)` for a non-empty separator: the pieces between the
      leftmost non-overlapping occurrences of `sep`. */
  function Split(s: string, sep: string): (parts: seq<string>)
    requires |sep| > 0
    ensures |parts| >= 1
    ensures Join(parts, sep) == s
    ensures forall k :: 0 <= k < |parts| ==> !Contains(parts[k], sep)
    decreases |s|
  {
    match FindFirst(s, sep)
    case None => [s]
    case Some(i) =>
      PrefixBeforeFirst(s, sep, i);
      var rest := Split(s[i + |sep|..], sep);
      assert s == s[..i] + sep + s[i + |sep|..];
      [s[..i]] + rest
  }

  /** Python's `t[:-2]`: all but the last two characters, empty when shorter. */
  function DropLastTwo(t: string): (r: string)
    ensures |t| >= 2 ==> r + t[|t| - 2..] == t
    ensures |t| < 2 ==> r == ""
  {
    if |t| >= 2 then t[..|t| - 2] else ""
  }

  /** The message extracted from a text reply (`main.py:253-254`): what follows
      the first "h1>" with its last two characters dropped, up to the next
      "h1>"; the whole text when "h1>" does not occur. */
  function HtmlMessage(text: string): (r: string)
    ensures !Contains(text, "h1>") ==> r == text
  {
    var parts := Split(text, "h1>");
    if |parts| > 1 then DropLastTwo(parts[1]) else text
  }

  /** In `x + w + rest`, where `w` is an opening or closing h1 tag and `x`
      holds no "h1>", the first "h1>" is the one that ends `w`. */
  lemma TagEndsFirst(x: string, w: string, rest: string)
    requires !Contains(x, "h1>")
    requires w == "<h1>" || w == "</h1>"
    ensures FindFirst(x + w + rest, "h1>") == Some(|x| + |w| - 3)
  {
    var t, sep := x + w + rest, "h1>";
    var k := |x| + |w| - 3;
    assert t[k..k + 3] == w[|w| - 3..];
    forall j | 0 <= j < k
      ensures !OccursAt(t, sep, j)
    {
      if j + 3 <= |x| {
        assert t[j..j + 3] == x[j..j + 3];
        assert !OccursAt(x, sep, j);
      } else if j <= |x| {
        assert t[|x|] == '<' && sep[|x| - j] != '<';
        assert t[j..j + 3][|x| - j] == t[|x|];
      } else {
        assert t[j] == '/';
        assert t[j..j + 3][0] == t[j];
      }
    }
    FindFirstIs(t, sep, k);
  }

  /** `Split` cuts at the first occurrence of the separator. */
  lemma SplitAtFirst(t: string, sep: string, k: nat)
    requires |sep| > 0 && FindFirst(t, sep) == Some(k)
    ensures k + |sep| <= |t|
    ensures Split(t, sep) == [t[..k]] + Split(t[k + |sep|..], sep)
  {
  }

  /** Splitting `x + w + rest` on "h1>" cuts first at the end of the tag `w`. */
  lemma SplitAtTag(x: string, w: string, rest: string)
    requires !Contains(x, "h1>")
    requires w == "<h1>" || w == "</h1>"
    ensures Split(x + w + rest, "h1>") == [x + w[..|w| - 3]] + Split(rest, "h1>")
  {
    var t := x + w + rest;
    var k := |x| + |w| - 3;
    TagEndsFirst(x, w, rest);
    SplitAtFirst(t, "h1>", k);
    assert t[..k] == x + w[..|w| - 3];
    assert t[k + 3..] == rest;
  }

  /** On an HTML error page whose heading is `<h1>m</h1>`, the extracted
      message is exactly the heading text `m`. */
  lemma HtmlMessageOfHeading(before: string, m: string, after: string)
    requires !Contains(before, "h1>") && !Contains(m, "h1>")
    ensures HtmlMessage(before + "<h1>" + m + "</h1>" + after) == m
  {
    var rest := m + "</h1>" + after;
    assert before + "<h1>" + m + "</h1>" + after == before + "<h1>" + rest;
    SplitAtTag(before, "<h1>", rest);
    SplitAtTag(m, "</h1>", after);
    assert (m + "</h1>"[..2])[..|m|] == m;
  }
}
