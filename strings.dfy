/**
 * ASCII models of the handful of Python `str` operations the bot relies on:
 * `split()` / `strip()` on whitespace, `split(sep)`, `' '.join`, `lower()`,
 * `title()`, `startswith` / `endswith`, `str(int)` and `int(str)`.
 * Characters outside ASCII are treated as ordinary non-space, non-letter characters.
 */
module Strings {
  import opened Base

  // ---------------------------------------------------------------------------
  // Character classes
  // ---------------------------------------------------------------------------

  /** `c.isspace()` restricted to ASCII: tab, newline, vertical tab, form feed,
      carriage return, the four separator controls 0x1C-0x1F, and space. */
  predicate IsSpace(c: char) {
    var n := c as int;
    (9 <= n <= 13) || (28 <= n <= 32)
  }

  predicate IsUpper(c: char) { 'A' <= c <= 'Z' }
  predicate IsLower(c: char) { 'a' <= c <= 'z' }
  /** ASCII letters are exactly the cased characters. */
  predicate IsAlpha(c: char) { IsUpper(c) || IsLower(c) }
  predicate IsDigit(c: char) { '0' <= c <= '9' }
  /** The regular-expression class `\w` restricted to ASCII. */
  predicate IsWordChar(c: char) { IsAlpha(c) || IsDigit(c) || c == '_' }

  function LowerChar(c: char): (r: char)
    ensures IsAlpha(c) <==> IsAlpha(r)
    ensures !IsUpper(r)
  {
    if IsUpper(c) then (c as int + 32) as char else c
  }

  function UpperChar(c: char): (r: char)
    ensures IsAlpha(c) <==> IsAlpha(r)
    ensures !IsLower(r)
  {
    if IsLower(c) then (c as int - 32) as char else c
  }

  /** `s.lower()`. */
  function Lower(s: string): (r: string)
    ensures |r| == |s|
    ensures forall i :: 0 <= i < |s| ==> r[i] == LowerChar(s[i])
  {
    if s == [] then [] else [LowerChar(s[0])] + Lower(s[1..])
  }

  // ---------------------------------------------------------------------------
  // Prefixes and suffixes
  // ---------------------------------------------------------------------------

  predicate StartsWith(s: string, p: string) { |p| <= |s| && s[..|p|] == p }
  predicate EndsWith(s: string, p: string) { |p| <= |s| && s[|s| - |p|..] == p }

  // ---------------------------------------------------------------------------
  // Fields: maximal runs of characters that are not separators
  // ---------------------------------------------------------------------------

  /** Length of the leading run of non-separator characters. */
  function RunLength(s: string, isSep: char -> bool): (n: nat)
    ensures n <= |s|
    ensures forall i :: 0 <= i < n ==> !isSep(s[i])
    ensures n < |s| ==> isSep(s[n])
  {
    if s == [] || isSep(s[0]) then 0 else 1 + RunLength(s[1..], isSep)
  }

  /** The run ends at the first separator. */
  lemma {:induction false} RunLengthIs(s: string, isSep: char -> bool, k: nat)
    requires k <= |s| && (forall i :: 0 <= i < k ==> !isSep(s[i])) && (k < |s| ==> isSep(s[k]))
    ensures RunLength(s, isSep) == k
  {
    if k > 0 {
      assert !isSep(s[0]);
      forall i | 0 <= i < k - 1 ensures !isSep(s[1..][i]) {
        assert s[1..][i] == s[i + 1];
      }
      RunLengthIs(s[1..], isSep, k - 1);
    }
  }

  /** The maximal runs of non-separator characters of `s`, left to right.
      With `IsSpace` this is Python's `s.split()`. */
  function Fields(s: string, isSep: char -> bool): (r: seq<string>)
    decreases |s|
  {
    if s == [] then []
    else if isSep(s[0]) then Fields(s[1..], isSep)
    else
      var n := RunLength(s, isSep);
      [s[..n]] + Fields(s[n..], isSep)
  }

  /** A well-formed field list: every field is non-empty and separator-free. */
  ghost predicate ProperFields(ws: seq<string>, isSep: char -> bool) {
    forall k :: 0 <= k < |ws| ==> ws[k] != [] && forall i :: 0 <= i < |ws[k]| ==> !isSep(ws[k][i])
  }

  lemma {:induction false} FieldsProper(s: string, isSep: char -> bool)
    ensures ProperFields(Fields(s, isSep), isSep)
    decreases |s|
  {
    if s == [] {
    } else if isSep(s[0]) {
      FieldsProper(s[1..], isSep);
    } else {
      var n := RunLength(s, isSep);
      FieldsProper(s[n..], isSep);
    }
  }

  /** Python's `s.split()`. */
  function Words(s: string): (r: seq<string>)
    ensures ProperFields(r, IsSpace)
  {
    FieldsProper(s, IsSpace);
    Fields(s, IsSpace)
  }

  /** `sep.join(ws)`. */
  function Join(ws: seq<string>, sep: string): (r: string)
    decreases |ws|
  {
    if ws == [] then []
    else if |ws| == 1 then ws[0]
    else ws[0] + sep + Join(ws[1..], sep)
  }

  /** A separator at the front is skipped. */
  lemma {:induction false} FieldsSkipSep(c: char, s: string, isSep: char -> bool)
    requires isSep(c)
    ensures Fields([c] + s, isSep) == Fields(s, isSep)
  {
    assert ([c] + s)[1..] == s;
  }

  /** A proper word followed by nothing, or by a separator, is read back as that word. */
  lemma {:induction false} FieldsWordThen(w: string, rest: string, isSep: char -> bool)
    requires w != [] && forall i :: 0 <= i < |w| ==> !isSep(w[i])
    requires rest == [] || isSep(rest[0])
    ensures Fields(w + rest, isSep) == [w] + Fields(rest, isSep)
  {
    var s := w + rest;
    RunLengthOfWord(w, rest, isSep);
    assert s[..|w|] == w;
    assert s[|w|..] == rest;
  }

  lemma {:induction false} RunLengthOfWord(w: string, rest: string, isSep: char -> bool)
    requires forall i :: 0 <= i < |w| ==> !isSep(w[i])
    requires rest == [] || isSep(rest[0])
    ensures RunLength(w + rest, isSep) == |w|
    decreases |w|
  {
    var s := w + rest;
    if w == [] {
      assert s == rest;
    } else {
      assert s[1..] == w[1..] + rest;
      RunLengthOfWord(w[1..], rest, isSep);
    }
  }

  /** Joining proper fields with a separator character and splitting again gives them back. */
  lemma {:induction false} FieldsOfJoin(ws: seq<string>, c: char, isSep: char -> bool)
    requires isSep(c)
    requires ProperFields(ws, isSep)
    ensures Fields(Join(ws, [c]), isSep) == ws
    decreases |ws|
  {
    if ws == [] {
    } else if |ws| == 1 {
      FieldsWordThen(ws[0], [], isSep);
      assert ws[0] + [] == ws[0];
    } else {
      var tail := Join(ws[1..], [c]);
      assert ProperFields(ws[1..], isSep) by {
        forall k | 0 <= k < |ws[1..]|
          ensures ws[1..][k] != [] && forall i :: 0 <= i < |ws[1..][k]| ==> !isSep(ws[1..][k][i])
        {
          assert ws[1..][k] == ws[k + 1];
        }
      }
      assert Join(ws, [c]) == ws[0] + ([c] + tail);
      FieldsWordThen(ws[0], [c] + tail, isSep);
      FieldsSkipSep(c, tail, isSep);
      FieldsOfJoin(ws[1..], c, isSep);
      assert ws == [ws[0]] + ws[1..];
    }
  }

  /** The first `n` elements of a sequence, or all of it when it is shorter (`xs[:n]` for `n >= 0`). */
  function Take<T>(xs: seq<T>, n: nat): (r: seq<T>)
    ensures |r| == Min(n, |xs|)
    ensures forall i :: 0 <= i < |r| ==> r[i] == xs[i]
  {
    if n <= |xs| then xs[..n] else xs
  }

  // ---------------------------------------------------------------------------
  // strip()
  // ---------------------------------------------------------------------------

  function TrimLeft(s: string): (r: string)
    ensures |r| <= |s| && r == s[|s| - |r|..]
    ensures r != [] ==> !IsSpace(r[0])
    ensures forall i :: 0 <= i < |s| - |r| ==> IsSpace(s[i])
  {
    if s != [] && IsSpace(s[0]) then TrimLeft(s[1..]) else s
  }

  function TrimRight(s: string): (r: string)
    ensures |r| <= |s| && r == s[..|r|]
    ensures r != [] ==> !IsSpace(r[|r| - 1])
    ensures forall i :: |r| <= i < |s| ==> IsSpace(s[i])
  {
    if s != [] && IsSpace(s[|s| - 1]) then TrimRight(s[..|s| - 1]) else s
  }

  /** Neither end of `s` is whitespace. */
  predicate Trimmed(s: string) { s != [] ==> !IsSpace(s[0]) && !IsSpace(s[|s| - 1]) }

  /** `s.strip()`: `s` without its leading and trailing whitespace. */
  function Strip(s: string): (r: string)
    ensures StripOffset(s) + |r| <= |s|
    ensures r == s[StripOffset(s)..StripOffset(s) + |r|]
    ensures Trimmed(r)
  {
    var l := TrimLeft(s);
    var r := TrimRight(l);
    StripIndices(s, l, r);
    r
  }

  lemma StripIndices(s: string, l: string, r: string)
    requires |l| <= |s| && l == s[|s| - |l|..]
    requires |r| <= |l| && r == l[..|r|]
    ensures r == s[|s| - |l|..|s| - |l| + |r|]
  {
  }

  /** Where the stripped text starts in the original. */
  function StripOffset(s: string): (k: nat)
    ensures k <= |s|
  {
    |s| - |TrimLeft(s)|
  }

  /** `strip()` is idempotent. */
  lemma StripIdempotent(s: string)
    ensures Strip(Strip(s)) == Strip(s)
  {
    var r := Strip(s);
    var l := TrimLeft(r);
    assert l == r;
  }

  /** Leading separators do not change the fields. */
  lemma {:induction false} FieldsTrimLeft(s: string)
    ensures Fields(TrimLeft(s), IsSpace) == Fields(s, IsSpace)
    decreases |s|
  {
    if s != [] && IsSpace(s[0]) {
      FieldsTrimLeft(s[1..]);
    }
  }

  /** Appending a separator does not change the fields. */
  lemma {:induction false} FieldsAppendSep(s: string, c: char, isSep: char -> bool)
    requires isSep(c)
    ensures Fields(s + [c], isSep) == Fields(s, isSep)
    decreases |s|
  {
    var t := s + [c];
    if s == [] {
      assert t[1..] == [];
    } else if isSep(s[0]) {
      assert t[1..] == s[1..] + [c];
      FieldsAppendSep(s[1..], c, isSep);
    } else {
      var n := RunLength(s, isSep);
      RunLengthAppendSep(s, c, isSep);
      assert t[..n] == s[..n];
      assert t[n..] == s[n..] + [c];
      FieldsAppendSep(s[n..], c, isSep);
    }
  }

  lemma {:induction false} RunLengthAppendSep(s: string, c: char, isSep: char -> bool)
    requires isSep(c)
    ensures RunLength(s + [c], isSep) == RunLength(s, isSep)
    decreases |s|
  {
    var t := s + [c];
    if s != [] && !isSep(s[0]) {
      assert t[1..] == s[1..] + [c];
      RunLengthAppendSep(s[1..], c, isSep);
    }
  }

  lemma {:induction false} FieldsTrimRight(s: string)
    ensures Fields(TrimRight(s), IsSpace) == Fields(s, IsSpace)
    decreases |s|
  {
    if s != [] && IsSpace(s[|s| - 1]) {
      var p := s[..|s| - 1];
      assert s == p + [s[|s| - 1]];
      FieldsAppendSep(p, s[|s| - 1], IsSpace);
      FieldsTrimRight(p);
    }
  }

  /** `s.strip().split() == s.split()`. */
  lemma StripWords(s: string)
    ensures Words(Strip(s)) == Words(s)
  {
    FieldsTrimRight(TrimLeft(s));
    FieldsTrimLeft(s);
  }

  // ---------------------------------------------------------------------------
  // title()
  // ---------------------------------------------------------------------------

  /** `str.title()` scanning from a state in which the previous character was (or was not) cased:
      a letter after a cased character is lowered, any other letter is raised, and every
      non-letter is kept. */
  function TitleFrom(s: string, prevCased: bool): (r: string)
    ensures |r| == |s|
    decreases |s|
  {
    if s == [] then []
    else
      var c := s[0];
      var t := if !IsAlpha(c) then c else if prevCased then LowerChar(c) else UpperChar(c);
      [t] + TitleFrom(s[1..], IsAlpha(c))
  }

  /** Python's `s.title()` on ASCII text. */
  function Title(s: string): (r: string)
    ensures |r| == |s|
  {
    TitleFrom(s, false)
  }

  /** Whether the last character of `s` (or, for empty `s`, the initial state) is cased. */
  function EndsCased(s: string, prevCased: bool): bool {
    if s == [] then prevCased else IsAlpha(s[|s| - 1])
  }

  lemma {:induction false} TitleFromAppend(a: string, b: string, p: bool)
    ensures TitleFrom(a + b, p) == TitleFrom(a, p) + TitleFrom(b, EndsCased(a, p))
    decreases |a|
  {
    if a != [] {
      assert (a + b)[0] == a[0];
      assert (a + b)[1..] == a[1..] + b;
      TitleFromAppend(a[1..], b, IsAlpha(a[0]));
      assert a + b != [];
      if |a| > 1 {
        assert a[1..][|a[1..]| - 1] == a[|a| - 1];
      }
    } else {
      assert a + b == b;
    }
  }

  /** Title-casing changes letters only, and keeps every non-letter in place. */
  lemma {:induction false} TitleFromKeeps(s: string, p: bool, i: nat)
    requires i < |s|
    ensures IsAlpha(TitleFrom(s, p)[i]) <==> IsAlpha(s[i])
    ensures !IsAlpha(s[i]) ==> TitleFrom(s, p)[i] == s[i]
    decreases |s|
  {
    if i > 0 {
      TitleFromKeeps(s[1..], IsAlpha(s[0]), i - 1);
    }
  }

  /** `title()` restarts after every non-letter, so it distributes over a join with `' '`. */
  lemma {:induction false} TitleJoin(ws: seq<string>)
    ensures Title(Join(ws, " ")) == Join(MapTitle(ws), " ")
    decreases |ws|
  {
    if |ws| > 1 {
      var tail := Join(ws[1..], " ");
      assert Join(ws, " ") == ws[0] + (" " + tail);
      TitleFromAppend(ws[0], " " + tail, false);
      assert (" " + tail)[1..] == tail;
      TitleJoin(ws[1..]);
    }
  }

  /** Each word of a list, title-cased. */
  function MapTitle(ws: seq<string>): (r: seq<string>)
    ensures |r| == |ws|
    ensures forall k :: 0 <= k < |ws| ==> r[k] == Title(ws[k])
  {
    if ws == [] then [] else [Title(ws[0])] + MapTitle(ws[1..])
  }

  lemma MapTitleProper(ws: seq<string>)
    requires ProperFields(ws, IsSpace)
    ensures ProperFields(MapTitle(ws), IsSpace)
  {
    forall k, i | 0 <= k < |ws| && 0 <= i < |ws[k]|
      ensures !IsSpace(MapTitle(ws)[k][i])
    {
      TitleFromKeeps(ws[k], false, i);
    }
  }

  /** The words of `' '.join(ws).title()` are the title-cased words of `ws`. */
  lemma TitledJoinWords(ws: seq<string>)
    requires ProperFields(ws, IsSpace)
    ensures Words(Title(Join(ws, " "))) == MapTitle(ws)
  {
    TitleJoin(ws);
    MapTitleProper(ws);
    FieldsOfJoin(MapTitle(ws), ' ', IsSpace);
  }

  // ---------------------------------------------------------------------------
  // split(sep) with a non-empty separator
  // ---------------------------------------------------------------------------

  /** Python's `s.split(sep)`: cut at every leftmost non-overlapping occurrence of `sep`;
      the result always has at least one (possibly empty) part. */
  function Split(s: string, sep: string): (r: seq<string>)
    requires sep != []
    ensures |r| >= 1
    decreases |s|
  {
    if s == [] then [[]]
    else if StartsWith(s, sep) then [[]] + Split(s[|sep|..], sep)
    else
      var rest := Split(s[1..], sep);
      [[s[0]] + rest[0]] + rest[1..]
  }

  /** A string with no separator character splits into itself. */
  lemma {:induction false} SplitNoSep(s: string, c: char)
    requires c !in s
    ensures Split(s, [c]) == [s]
    decreases |s|
  {
    if s != [] {
      assert s[0] != c;
      assert !StartsWith(s, [c]);
      SplitNoSep(s[1..], c);
      assert [s[0]] + s[1..] == s;
    }
  }

  /** Splitting `a + sep + b` on `sep`, where `a` holds no separator character. */
  lemma {:induction false} SplitAt(a: string, b: string, c: char)
    requires c !in a
    ensures Split(a + [c] + b, [c]) == [a] + Split(b, [c])
    decreases |a|
  {
    var s := a + [c] + b;
    if a == [] {
      assert s == [c] + b;
      assert StartsWith(s, [c]);
      assert s[1..] == b;
    } else {
      assert s[0] == a[0] != c;
      assert s[..1] == [s[0]];
      assert !StartsWith(s, [c]);
      assert s[1..] == a[1..] + [c] + b;
      SplitAt(a[1..], b, c);
      assert [a[0]] + a[1..] == a;
    }
  }

  /** Splitting a separator-joined list of separator-free parts restores the parts. */
  lemma {:induction false} SplitJoin(parts: seq<string>, c: char)
    requires |parts| >= 1
    requires forall k :: 0 <= k < |parts| ==> c !in parts[k]
    ensures Split(Join(parts, [c]), [c]) == parts
    decreases |parts|
  {
    if |parts| == 1 {
      SplitNoSep(parts[0], c);
    } else {
      SplitAt(parts[0], Join(parts[1..], [c]), c);
      SplitJoin(parts[1..], c);
      assert parts == [parts[0]] + parts[1..];
    }
  }

  /** No occurrence of `sep` starts at any position of `s`. */
  predicate NoOccurrence(s: string, sep: string) {
    forall i :: 0 <= i < |s| ==> !StartsWith(s[i..], sep)
  }

  /** A string in which the separator never occurs splits into itself. */
  lemma {:induction false} SplitNoOccurrence(s: string, sep: string)
    requires sep != [] && NoOccurrence(s, sep)
    ensures Split(s, sep) == [s]
    decreases |s|
  {
    if s != [] {
      assert s[0..] == s;
      assert NoOccurrence(s[1..], sep) by {
        forall i | 0 <= i < |s[1..]| ensures !StartsWith(s[1..][i..], sep) {
          assert s[1..][i..] == s[i + 1..];
        }
      }
      SplitNoOccurrence(s[1..], sep);
      assert [s[0]] + s[1..] == s;
    }
  }

  /** Splitting `a + sep + b` where `sep` starts nowhere inside `a + sep + b` before `|a|`. */
  lemma {:induction false} SplitAtFirst(a: string, sep: string, b: string)
    requires sep != []
    requires forall i :: 0 <= i < |a| ==> !StartsWith((a + sep + b)[i..], sep)
    ensures Split(a + sep + b, sep) == [a] + Split(b, sep)
    decreases |a|
  {
    var s := a + sep + b;
    if a == [] {
      assert s == sep + b;
      assert s[..|sep|] == sep;
      assert s[|sep|..] == b;
    } else {
      assert s[0..] == s;
      assert s[1..] == a[1..] + sep + b;
      forall i | 0 <= i < |a[1..]| ensures !StartsWith((a[1..] + sep + b)[i..], sep) {
        assert (a[1..] + sep + b)[i..] == s[i + 1..];
      }
      SplitAtFirst(a[1..], sep, b);
      assert [a[0]] + a[1..] == a;
    }
  }

  /** The number of parts is one more than the number of separator characters. */
  function CountChar(s: string, c: char): (n: nat)
    ensures n <= |s|
    ensures n == 0 <==> c !in s
  {
    if s == [] then 0 else (if s[0] == c then 1 else 0) + CountChar(s[1..], c)
  }

  lemma {:induction false} SplitCount(s: string, c: char)
    ensures |Split(s, [c])| == CountChar(s, c) + 1
    decreases |s|
  {
    if s != [] {
      SplitCount(s[1..], c);
    }
  }

  lemma CountCharAppend(a: string, b: string, c: char)
    ensures CountChar(a + b, c) == CountChar(a, c) + CountChar(b, c)
  {
    if a != [] {
      assert (a + b)[0] == a[0];
      assert (a + b)[1..] == a[1..] + b;
      CountCharAppend(a[1..], b, c);
    } else {
      assert a + b == b;
    }
  }

  // ---------------------------------------------------------------------------
  // Decimal integers: str(n) and int(s)
  // ---------------------------------------------------------------------------

  function DigitChar(d: nat): (c: char)
    requires d < 10
    ensures IsDigit(c)
  {
    ('0' as int + d) as char
  }

  function DigitValue(c: char): (d: nat)
    requires IsDigit(c)
    ensures d < 10
  {
    c as int - '0' as int
  }

  /** `str(n)` for a natural number: decimal digits, no leading zeros. */
  function NatToString(n: nat): (s: string)
    ensures s != []
    ensures forall i :: 0 <= i < |s| ==> IsDigit(s[i])
  {
    if n < 10 then [DigitChar(n)] else NatToString(n / 10) + [DigitChar(n % 10)]
  }

  /** `str(n)` for any integer. */
  function IntToString(n: int): (s: string)
    ensures s != []
    ensures forall i :: 0 <= i < |s| ==> IsDigit(s[i]) || (i == 0 && s[i] == '-')
  {
    if n < 0 then "-" + NatToString(-n) else NatToString(n)
  }

  /** The value of a non-empty run of decimal digits (leading zeros allowed). */
  function DigitsValue(s: string): (n: nat)
    requires forall i :: 0 <= i < |s| ==> IsDigit(s[i])
  {
    if s == [] then 0 else 10 * DigitsValue(s[..|s| - 1]) + DigitValue(s[|s| - 1])
  }

  predicate AllDigits(s: string) { s != [] && forall i :: 0 <= i < |s| ==> IsDigit(s[i]) }

  /** `int(s)` for an optional sign followed by decimal digits; anything else is the
      `ValueError` branch, here `None`. */
  function ParseInt(s: string): (r: Option<int>)
    ensures r.Some? ==> s != []
  {
    if AllDigits(s) then Some(DigitsValue(s))
    else if |s| >= 2 && (s[0] == '-' || s[0] == '+') && AllDigits(s[1..]) then
      var v: int := DigitsValue(s[1..]);
      Some(if s[0] == '-' then -v else v)
    else None
  }

  lemma {:induction false} NatToStringValue(n: nat)
    ensures DigitsValue(NatToString(n)) == n
  {
    if n >= 10 {
      var s := NatToString(n);
      assert s[..|s| - 1] == NatToString(n / 10);
      NatToStringValue(n / 10);
    }
  }

  /** `int(str(n)) == n`. */
  lemma IntToStringRoundTrip(n: int)
    ensures ParseInt(IntToString(n)) == Some(n)
  {
    if n < 0 {
      NatToStringValue(-n);
      assert IntToString(n)[1..] == NatToString(-n);
    } else {
      NatToStringValue(n);
    }
  }

  lemma IntToStringNoChar(n: int, c: char)
    requires !IsDigit(c) && c != '-'
    ensures c !in IntToString(n)
  {
  }
}
