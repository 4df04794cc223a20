/** String helpers the service relies on: decimal numerals, the
    JavaScript `String.prototype.split` on a non-empty separator, and the
    escaping used inside token segments. */
module Text {
  import opened Results

  // ---------------------------------------------------------------------------
  // Decimal numerals

  predicate IsDigit(c: char) {
    '0' <= c <= '9'
  }

  predicate AllDigits(s: string) {
    forall i :: 0 <= i < |s| ==> IsDigit(s[i])
  }

  /** A non-empty run of decimal digits. */
  predicate IsDecimal(s: string) {
    |s| > 0 && AllDigits(s)
  }

  function DigitChar(d: nat): (c: char)
    requires d < 10
    ensures IsDigit(c)
  {
    ('0' as int + d) as char
  }

  function DigitValue(c: char): (d: nat)
    requires IsDigit(c)
    ensures d < 10
    ensures DigitChar(d) == c
  {
    c as int - '0' as int
  }

  /** The value of a string of decimal digits, most significant digit first. */
  function ParseDecimal(s: string): nat
    requires AllDigits(s)
    decreases |s|
  {
    if |s| == 0 then 0 else 10 * ParseDecimal(s[..|s| - 1]) + DigitValue(s[|s| - 1])
  }

  /** The shortest decimal numeral of `n`: no leading zero unless `n` is zero. */
  function NatToDecimal(n: nat): (s: string)
    ensures IsDecimal(s)
    ensures s[0] == '0' ==> n == 0
  {
    if n < 10 then [DigitChar(n)] else NatToDecimal(n / 10) + [DigitChar(n % 10)]
  }

  lemma {:induction false} ParseNatToDecimal(n: nat)
    ensures ParseDecimal(NatToDecimal(n)) == n
  {
    if n >= 10 {
      var s := NatToDecimal(n);
      assert s[..|s| - 1] == NatToDecimal(n / 10);
      ParseNatToDecimal(n / 10);
    }
  }

  // ---------------------------------------------------------------------------
  // Occurrences and split

  /** `pat` occurs in `s` starting at index `j`. */
  predicate OccursAt(s: string, pat: string, j: int) {
    0 <= j && j + |pat| <= |s| && s[j..j + |pat|] == pat
  }

  predicate Occurs(s: string, pat: string) {
    exists j | 0 <= j <= |s| :: OccursAt(s, pat, j)
  }

  /** The first occurrence of `pat` in `s` at or after `from`. */
  function IndexFrom(s: string, pat: string, from: nat): (r: Option<nat>)
    requires |pat| > 0
    ensures r.Some? ==> from <= r.value && OccursAt(s, pat, r.value)
    ensures r.Some? ==> forall j :: from <= j < r.value ==> !OccursAt(s, pat, j)
    ensures r.None? ==> forall j :: from <= j ==> !OccursAt(s, pat, j)
    decreases |s| - from
  {
    if from + |pat| > |s| then None
    else if s[from..from + |pat|] == pat then Some(from)
    else IndexFrom(s, pat, from + 1)
  }

  /** `s.indexOf(pat)`, with `None` for -1. */
  function IndexOf(s: string, pat: string): (r: Option<nat>)
    requires |pat| > 0
    ensures r.Some? ==> OccursAt(s, pat, r.value)
    ensures r.Some? ==> forall j :: 0 <= j < r.value ==> !OccursAt(s, pat, j)
    ensures r.None? <==> !Occurs(s, pat)
  {
    IndexFrom(s, pat, 0)
  }

  function Join(parts: seq<string>, sep: string): string
    requires |parts| > 0
  {
    if |parts| == 1 then parts[0] else parts[0] + sep + Join(parts[1..], sep)
  }

  /** An occurrence inside a prefix of `s` is an occurrence in `s` ending
      within the prefix. */
  lemma PrefixOccurrence(s: string, pat: string, n: nat, j: int)
    requires n <= |s|
    ensures OccursAt(s[..n], pat, j) ==> OccursAt(s, pat, j) && j + |pat| <= n
  {
    if 0 <= j && j + |pat| <= n {
      assert s[..n][j..j + |pat|] == s[j..j + |pat|];
    }
  }

  lemma SliceAround(s: string, i: nat, n: nat)
    requires i + n <= |s|
    ensures s == s[..i] + s[i..i + n] + s[i + n..]
  {
  }

  /** One step of `Split`: the piece before the first occurrence of `sep`,
      followed by the pieces of the remainder. */
  lemma SplitStep(s: string, sep: string, i: nat, rest: seq<string>)
    requires |sep| > 0
    requires IndexOf(s, sep) == Some(i)
    requires |rest| >= 1
    requires Join(rest, sep) == s[i + |sep|..]
    requires forall k :: 0 <= k < |rest| ==> !Occurs(rest[k], sep)
    ensures Occurs(s, sep)
    ensures Join([s[..i]] + rest, sep) == s
    ensures forall k :: 0 <= k < |[s[..i]] + rest| ==> !Occurs(([s[..i]] + rest)[k], sep)
  {
    var head := s[..i];
    assert Occurs(s, sep) by {
      assert 0 <= i <= |s| && OccursAt(s, sep, i);
    }
    assert Join([head] + rest, sep) == s by {
      assert ([head] + rest)[1..] == rest;
      SliceAround(s, i, |sep|);
    }
    assert !Occurs(head, sep) by {
      forall j
        ensures OccursAt(head, sep, j) ==> OccursAt(s, sep, j) && j + |sep| <= i
      {
        PrefixOccurrence(s, sep, i, j);
      }
    }
    forall k | 0 <= k < |[head] + rest|
      ensures !Occurs(([head] + rest)[k], sep)
    {
      if k > 0 {
        assert ([head] + rest)[k] == rest[k - 1];
      }
    }
  }

  /** `s.split(sep)` for a non-empty separator: the pieces between the
      successive non-overlapping occurrences of `sep`, scanning left to right. */
  function Split(s: string, sep: string): (parts: seq<string>)
    requires |sep| > 0
    ensures |parts| >= 1
    ensures |parts| == 1 <==> !Occurs(s, sep)
    ensures Join(parts, sep) == s
    ensures forall k :: 0 <= k < |parts| ==> !Occurs(parts[k], sep)
    decreases |s|
  {
    match IndexOf(s, sep)
    case None => [s]
    case Some(i) =>
      var rest := Split(s[i + |sep|..], sep);
      SplitStep(s, sep, i, rest);
      [s[..i]] + rest
  }

  /** The first piece of a split is the whole text, or runs up to the first
      occurrence of the separator. */
  lemma SplitHead(s: string, sep: string)
    requires |sep| > 0
    ensures Split(s, sep)[0] == s || Split(s, sep)[0] + sep <= s
  {
    match IndexOf(s, sep)
    case None =>
    case Some(i) =>
      assert Split(s, sep)[0] == s[..i];
      assert s[..i] + sep == s[..i + |sep|];
  }

  /** Splitting at a known first occurrence. */
  lemma SplitAt(s: string, sep: string, i: nat)
    requires |sep| > 0
    requires OccursAt(s, sep, i)
    requires forall j :: 0 <= j < i ==> !OccursAt(s, sep, j)
    ensures Split(s, sep) == [s[..i]] + Split(s[i + |sep|..], sep)
  {
    var k := IndexOf(s, sep);
    assert k.Some?;
    assert k.value == i;
  }

  lemma SplitWithout(s: string, sep: string)
    requires |sep| > 0
    requires !Occurs(s, sep)
    ensures Split(s, sep) == [s]
  {
  }

  lemma OccurrenceChar(s: string, pat: string, j: int, k: nat)
    requires OccursAt(s, pat, j)
    requires k < |pat|
    ensures s[j + k] == pat[k]
  {
    assert s[j..j + |pat|][k] == s[j + k];
  }

  /** For a one-character separator, occurring is containing the character. */
  lemma OccursChar(s: string, c: char)
    ensures Occurs(s, [c]) <==> c in s
  {
    if c in s {
      var j :| 0 <= j < |s| && s[j] == c;
      assert s[j..j + 1] == [c];
      assert OccursAt(s, [c], j);
    }
    if Occurs(s, [c]) {
      var j :| 0 <= j <= |s| && OccursAt(s, [c], j);
      OccurrenceChar(s, [c], j, 0);
    }
  }

  /** A string containing `pat` contains each of its characters. */
  lemma OccurrenceHasChars(s: string, pat: string, k: nat)
    requires k < |pat|
    ensures Occurs(s, pat) ==> pat[k] in s
  {
    if Occurs(s, pat) {
      var j :| 0 <= j <= |s| && OccursAt(s, pat, j);
      OccurrenceChar(s, pat, j, k);
    }
  }

  // ---------------------------------------------------------------------------
  // Escaping inside token segments

  function EscapeChar(c: char): string {
    if c == '\\' then "\\\\" else if c == '.' then "\\d" else if c == ' ' then "\\s" else [c]
  }

  /** Escapes a segment so that it holds neither the segment separator '.'
      nor a space. */
  function Escape(s: string): (e: string)
    ensures '.' !in e && ' ' !in e
  {
    if |s| == 0 then "" else EscapeChar(s[0]) + Escape(s[1..])
  }

  function Unescaped(c: char): Option<char> {
    if c == '\\' then Some('\\') else if c == 'd' then Some('.') else if c == 's' then Some(' ') else None
  }

  /** Undoes `Escape`; `None` for a dangling or unknown escape. */
  function Unescape(e: string): Option<string>
    decreases |e|
  {
    if |e| == 0 then Some("")
    else if e[0] != '\\' then
      match Unescape(e[1..])
      case None => None
      case Some(t) => Some([e[0]] + t)
    else if |e| < 2 then None
    else
      match Unescaped(e[1])
      case None => None
      case Some(c) =>
        match Unescape(e[2..])
        case None => None
        case Some(t) => Some([c] + t)
  }

  lemma {:induction false} UnescapeEscape(s: string)
    ensures Unescape(Escape(s)) == Some(s)
  {
    if |s| > 0 {
      UnescapeEscape(s[1..]);
      var e := Escape(s);
      assert e == EscapeChar(s[0]) + Escape(s[1..]);
      if s[0] == '\\' || s[0] == '.' || s[0] == ' ' {
        assert e[2..] == Escape(s[1..]);
      } else {
        assert e[1..] == Escape(s[1..]);
      }
      assert s == [s[0]] + s[1..];
    }
  }
}
