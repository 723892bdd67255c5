/** String operations the source takes from JavaScript's and Python's runtime
    libraries: trimming, prefix tests, splitting on a separator, substring
    search, removal of every occurrence of a pattern, decimal rendering. */
module Text {
  import opened Options

  /** A character that JavaScript's `String.prototype.trim` removes: the
      WhiteSpace and LineTerminator code points of ECMAScript. */
  predicate IsJsSpace(c: char) {
    c == ' ' || c == '\t' || c == '\n' || c == '\r' || c == '\U{B}' || c == '\U{C}'
    || c == '\U{A0}' || c == '\U{FEFF}' || c == '\U{1680}' || ('\U{2000}' <= c <= '\U{200A}')
    || c == '\U{2028}' || c == '\U{2029}' || c == '\U{202F}' || c == '\U{205F}' || c == '\U{3000}'
  }

  /** A character that Python's `str.strip()` removes (`str.isspace`). */
  predicate IsPySpace(c: char) {
    ('\t' <= c <= '\r') || ('\U{1C}' <= c <= ' ') || c == '\U{85}' || c == '\U{A0}'
    || c == '\U{1680}' || ('\U{2000}' <= c <= '\U{200A}') || c == '\U{2028}' || c == '\U{2029}'
    || c == '\U{202F}' || c == '\U{205F}' || c == '\U{3000}'
  }

  /** `s` with its leading `space` characters removed. */
  function TrimStart(s: string, space: char -> bool): string {
    if s != [] && space(s[0]) then TrimStart(s[1..], space) else s
  }

  /** `s` with its trailing `space` characters removed. */
  function TrimEnd(s: string, space: char -> bool): string {
    if s != [] && space(s[|s| - 1]) then TrimEnd(s[..|s| - 1], space) else s
  }

  /** `s` with leading and trailing `space` characters removed. */
  function Trim(s: string, space: char -> bool): string {
    TrimEnd(TrimStart(s, space), space)
  }

  /** JavaScript's `s.trim()`. */
  function TrimJs(s: string): string {
    Trim(s, IsJsSpace)
  }

  /** Python's `s.strip()`. */
  function StripPy(s: string): string {
    Trim(s, IsPySpace)
  }

  /** `TrimStart` drops exactly the leading run of spaces: what it keeps is a
      suffix that does not start with a space, and all it drops is space. */
  lemma {:induction false} TrimStartSpec(s: string, space: char -> bool)
    ensures var r := TrimStart(s, space);
      && |r| <= |s| && r == s[|s| - |r|..]
      && (forall k :: 0 <= k < |s| - |r| ==> space(s[k]))
      && (r != [] ==> !space(r[0]))
  {
    if s != [] && space(s[0]) {
      TrimStartSpec(s[1..], space);
      var r := TrimStart(s, space);
      assert s[1..][|s| - 1 - |r|..] == s[|s| - |r|..];
      forall k | 0 <= k < |s| - |r|
        ensures space(s[k])
      {
        if k > 0 {
          assert s[k] == s[1..][k - 1];
        }
      }
    }
  }

  /** `TrimEnd` drops exactly the trailing run of spaces. */
  lemma {:induction false} TrimEndSpec(s: string, space: char -> bool)
    ensures var r := TrimEnd(s, space);
      && |r| <= |s| && r == s[..|r|]
      && (forall k :: |r| <= k < |s| ==> space(s[k]))
      && (r != [] ==> !space(r[|r| - 1]))
  {
    if s != [] && space(s[|s| - 1]) {
      TrimEndSpec(s[..|s| - 1], space);
      var r := TrimEnd(s, space);
      assert s[..|s| - 1][..|r|] == s[..|r|];
      forall k | |r| <= k < |s|
        ensures space(s[k])
      {
        if k < |s| - 1 {
          assert s[k] == s[..|s| - 1][k];
        }
      }
    }
  }

  /** Trimming keeps the slice `s[i..i + |r|]` whose surroundings are all space
      and whose ends are not. */
  lemma TrimSpec(s: string, space: char -> bool)
    ensures var r := Trim(s, space);
      var i := |s| - |TrimStart(s, space)|;
      && 0 <= i && i + |r| <= |s|
      && r == s[i..i + |r|]
      && (forall k :: 0 <= k < i ==> space(s[k]))
      && (forall k :: i + |r| <= k < |s| ==> space(s[k]))
      && (r != [] ==> !space(r[0]) && !space(r[|r| - 1]))
  {
    TrimStartSpec(s, space);
    TrimEndSpec(TrimStart(s, space), space);
  }

  /** Trimming leaves nothing exactly when every character is a space: the
      meaning of the guards `if (!input.trim())` and `if raw_args.strip()`. */
  lemma TrimEmptyIff(s: string, space: char -> bool)
    ensures Trim(s, space) == [] <==> forall k :: 0 <= k < |s| ==> space(s[k])
  {
    TrimSpec(s, space);
    var r := Trim(s, space);
    var i := |s| - |TrimStart(s, space)|;
    if r == [] {
      forall k | 0 <= k < |s|
        ensures space(s[k])
      {
        assert k < i || i + |r| <= k;
      }
    } else {
      assert r[0] == s[i];
    }
  }

  /** A string that neither starts nor ends with a space is its own trim. */
  lemma TrimUnchanged(s: string, space: char -> bool)
    requires s != [] ==> !space(s[0]) && !space(s[|s| - 1])
    ensures Trim(s, space) == s
  {
    assert TrimStart(s, space) == s;
  }

  /** Trimming twice is trimming once. */
  lemma TrimIdempotent(s: string, space: char -> bool)
    ensures Trim(Trim(s, space), space) == Trim(s, space)
  {
    TrimSpec(s, space);
    TrimUnchanged(Trim(s, space), space);
  }

  /** Every piece of `s` between occurrences of `sep`, in order: JavaScript's
      `s.split(sep)` for a one-character separator. */
  function Split(s: string, sep: char): (parts: seq<string>)
    ensures |parts| >= 1
    ensures forall i :: 0 <= i < |parts| ==> sep !in parts[i]
  {
    if s == [] then [[]]
    else
      var rest := Split(s[1..], sep);
      if s[0] == sep then [[]] + rest else [[s[0]] + rest[0]] + rest[1..]
  }

  /** The pieces glued back together with `sep` between neighbours. */
  function Join(parts: seq<string>, sep: char): string
    requires |parts| >= 1
  {
    if |parts| == 1 then parts[0] else parts[0] + [sep] + Join(parts[1..], sep)
  }

  /** Splitting loses nothing: the pieces joined with the separator give the
      original string back. */
  lemma {:induction false} JoinSplit(s: string, sep: char)
    ensures Join(Split(s, sep), sep) == s
  {
    if s != [] {
      var rest := Split(s[1..], sep);
      JoinSplit(s[1..], sep);
      if s[0] == sep {
        assert Split(s, sep) == [[]] + rest;
        assert Split(s, sep)[1..] == rest;
      } else {
        var parts := Split(s, sep);
        assert parts == [[s[0]] + rest[0]] + rest[1..];
        if |rest| == 1 {
          assert parts == [[s[0]] + rest[0]];
        } else {
          assert parts[1..] == rest[1..];
          assert Join(rest, sep) == rest[0] + [sep] + Join(rest[1..], sep);
        }
      }
    }
  }

  /** And the converse: pieces free of the separator are recovered by splitting
      their join, so `Split` and `Join` are inverse bijections. */
  lemma {:induction false} SplitJoin(parts: seq<string>, sep: char)
    requires |parts| >= 1
    requires forall i :: 0 <= i < |parts| ==> sep !in parts[i]
    ensures Split(Join(parts, sep), sep) == parts
  {
    if |parts| == 1 {
      SplitNoSeparator(parts[0], sep);
    } else {
      SplitJoin(parts[1..], sep);
      SplitPrefix(parts[0], Join(parts[1..], sep), sep);
      assert [sep] + Join(parts[1..], sep) == [sep] + Join(parts[1..], sep);
      assert parts == [parts[0]] + parts[1..];
    }
  }

  lemma {:induction false} SplitNoSeparator(s: string, sep: char)
    requires sep !in s
    ensures Split(s, sep) == [s]
  {
    if s != [] {
      SplitNoSeparator(s[1..], sep);
      assert s[0] != sep;
      assert [s[0]] + s[1..] == s;
    }
  }

  lemma {:induction false} SplitPrefix(a: string, b: string, sep: char)
    requires sep !in a
    ensures Split(a + [sep] + b, sep) == [a] + Split(b, sep)
  {
    if a == [] {
      assert [sep] + b == a + [sep] + b;
      assert ([sep] + b)[1..] == b;
    } else {
      assert (a + [sep] + b)[1..] == a[1..] + [sep] + b;
      SplitPrefix(a[1..], b, sep);
      assert [a[0]] + a[1..] == a;
    }
  }

  /** Two lines joined by one newline split back into the two lines. */
  lemma SplitTwoLines(a: string, b: string)
    requires '\n' !in a && '\n' !in b
    ensures Split(a + "\n" + b, '\n') == [a, b]
  {
    SplitNoSeparator(b, '\n');
    SplitPrefix(a, b, '\n');
    assert a + "\n" + b == a + ['\n'] + b;
  }

  /** `t` starts with `p`, compared character by character. */
  predicate StartsWith(t: string, p: string)
    decreases |p|
  {
    |p| <= |t| && (p == [] || (t[0] == p[0] && StartsWith(t[1..], p[1..])))
  }

  /** `StartsWith` is the prefix relation on strings. */
  lemma {:induction false} StartsWithPrefix(t: string, p: string)
    ensures StartsWith(t, p) <==> |p| <= |t| && t[..|p|] == p
    decreases |p|
  {
    if p != [] && |p| <= |t| {
      StartsWithPrefix(t[1..], p[1..]);
      assert t[..|p|] == [t[0]] + t[1..][..|p| - 1];
      assert p == [p[0]] + p[1..];
    }
  }

  /** A prefix of a prefix is a prefix. */
  lemma {:induction false} StartsWithTrans(t: string, b: string, p: string)
    requires StartsWith(t, b) && StartsWith(b, p)
    ensures StartsWith(t, p)
    decreases |p|
  {
    if p != [] {
      StartsWithTrans(t[1..], b[1..], p[1..]);
    }
  }

  /** `pat` occurs in `s` starting at index `k`. */
  predicate OccursAt(s: string, pat: string, k: nat) {
    k + |pat| <= |s| && StartsWith(s[k..], pat)
  }

  /** The first index at or after `from` where `pat` occurs in `s`, if any:
      JavaScript's `indexOf` and Python's `find`. */
  function IndexOf(s: string, pat: string, from: nat): (r: Option<nat>)
    ensures r.Some? ==> from <= r.value && r.value + |pat| <= |s|
    decreases |s| - from
  {
    if from + |pat| > |s| then None
    else if OccursAt(s, pat, from) then Some(from)
    else IndexOf(s, pat, from + 1)
  }

  /** The search finds an occurrence, and the first one at or after `from`;
      it finds none exactly when there is none. */
  lemma {:induction false} IndexOfSpec(s: string, pat: string, from: nat)
    ensures var r := IndexOf(s, pat, from);
      && (r.Some? ==> OccursAt(s, pat, r.value) && forall k :: from <= k < r.value ==> !OccursAt(s, pat, k))
      && (r.None? ==> forall k :: from <= k ==> !OccursAt(s, pat, k))
    decreases |s| - from
  {
    if from + |pat| <= |s| && !OccursAt(s, pat, from) {
      IndexOfSpec(s, pat, from + 1);
    }
  }

  /** The search finds `i` when the pattern occurs there and nowhere between
      `from` and `i`. */
  lemma IndexOfAt(s: string, pat: string, from: nat, i: nat)
    requires from <= i && OccursAt(s, pat, i)
    requires forall k :: from <= k < i ==> !OccursAt(s, pat, k)
    ensures IndexOf(s, pat, from) == Some(i)
  {
    IndexOfSpec(s, pat, from);
  }

  /** Python's `s.replace(pat, "")`: every occurrence of `pat`, found left to
      right without overlapping, is removed; the search goes on after each
      occurrence it removes. */
  function RemoveAll(s: string, pat: string): string
    requires pat != []
    decreases |s|
  {
    match IndexOf(s, pat, 0)
    case None => s
    case Some(i) => s[..i] + RemoveAll(s[i + |pat|..], pat)
  }

  /** Where `pat` first occurs at `i`, removal keeps `s[..i]` whole, drops that
      occurrence and goes on at its `end`. */
  lemma RemoveAllAtFirst(s: string, pat: string, i: nat, end: nat)
    requires pat != [] && end == i + |pat|
    requires OccursAt(s, pat, i)
    requires forall k :: 0 <= k < i ==> !OccursAt(s, pat, k)
    ensures RemoveAll(s, pat) == s[..i] + RemoveAll(s[end..], pat)
  {
    IndexOfAt(s, pat, 0, i);
  }

  /** A string in which `pat` never occurs is left unchanged by removal. */
  lemma RemoveAllAbsent(s: string, pat: string)
    requires pat != []
    requires forall k :: 0 <= k ==> !OccursAt(s, pat, k)
    ensures RemoveAll(s, pat) == s
  {
    IndexOfSpec(s, pat, 0);
  }

  /** The decimal digits of `n`, most significant first, as Python's `str(n)`
      writes them. */
  function Decimal(n: nat): (r: string)
    ensures |r| >= 1
    ensures forall i :: 0 <= i < |r| ==> '0' <= r[i] <= '9'
    ensures n >= 10 ==> r[0] != '0'
  {
    if n < 10 then [Digit(n)] else Decimal(n / 10) + [Digit(n % 10)]
  }

  function Digit(d: nat): (c: char)
    requires d < 10
    ensures '0' <= c <= '9'
  {
    ('0' as int + d) as char
  }

  function DigitValue(c: char): nat
    requires '0' <= c <= '9'
  {
    c as int - '0' as int
  }

  /** The number a string of decimal digits denotes. */
  function DecimalValue(s: string): nat
    requires forall i :: 0 <= i < |s| ==> '0' <= s[i] <= '9'
  {
    if s == [] then 0 else 10 * DecimalValue(s[..|s| - 1]) + DigitValue(s[|s| - 1])
  }

  /** Reading the digits back gives the number: `Decimal` is injective, so
      distinct counters give distinct identifiers. */
  lemma {:induction false} DecimalRoundTrip(n: nat)
    ensures DecimalValue(Decimal(n)) == n
  {
    if n >= 10 {
      DecimalRoundTrip(n / 10);
      var r := Decimal(n);
      assert r[..|r| - 1] == Decimal(n / 10);
      assert DigitValue(r[|r| - 1]) == n % 10;
    }
  }
}
