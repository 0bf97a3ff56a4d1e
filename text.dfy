/**
 * The handful of Python string operations the search engine relies on:
 * `str.strip`, `str.lstrip`, `str.split` and `str.join` on one character,
 * and `str.lower`.
 */
module Text {

  /** A class of characters to strip: Python's whitespace, ASCII digits, or one given character. */
  datatype CharClass = Blank | Digit | Exactly(c: char)

  /**
   * `Blank` is the set for which Python's `str.isspace()` holds (and which `\s`
   * matches in a `str` regex); `Digit` is `\d` restricted to ASCII.
   */
  predicate In(c: char, k: CharClass)
  {
    match k
    case Blank =>
      || '\t' <= c <= '\r' || '\U{001C}' <= c <= ' ' || c == '\U{0085}' || c == '\U{00A0}'
      || c == '\U{1680}' || '\U{2000}' <= c <= '\U{200A}' || c == '\U{2028}' || c == '\U{2029}'
      || c == '\U{202F}' || c == '\U{205F}' || c == '\U{3000}'
    case Digit => '0' <= c <= '9'
    case Exactly(d) => c == d
  }

  /** Number of leading characters of `s` in class `k`. */
  function LeadingCount(s: string, k: CharClass): (n: nat)
    ensures n <= |s|
  {
    if |s| == 0 || !In(s[0], k) then 0 else 1 + LeadingCount(s[1..], k)
  }

  /** Number of trailing characters of `s` in class `k`. */
  function TrailingCount(s: string, k: CharClass): (n: nat)
    ensures n <= |s|
  {
    if |s| == 0 || !In(s[|s| - 1], k) then 0 else 1 + TrailingCount(s[..|s| - 1], k)
  }

  /** Python `s.lstrip(...)`: drops every leading character of class `k`. */
  function TrimStart(s: string, k: CharClass): (r: string)
    ensures |r| <= |s|
  {
    if |s| > 0 && In(s[0], k) then TrimStart(s[1..], k) else s
  }

  /** Python `s.rstrip(...)`: drops every trailing character of class `k`. */
  function TrimEnd(s: string, k: CharClass): (r: string)
    ensures |r| <= |s|
  {
    if |s| > 0 && In(s[|s| - 1], k) then TrimEnd(s[..|s| - 1], k) else s
  }

  /** Python `s.strip(...)`: drops every leading and every trailing character of class `k`. */
  function Strip(s: string, k: CharClass): (r: string)
    ensures |r| <= |s|
  {
    TrimEnd(TrimStart(s, k), k)
  }

  /** Python `s.split(sep)` for a one-character separator. */
  function Split(s: string, sep: char): (r: seq<string>)
    ensures |r| >= 1
  {
    if |s| == 0 then [""]
    else
      var rest := Split(s[1..], sep);
      if s[0] == sep then [""] + rest else [[s[0]] + rest[0]] + rest[1..]
  }

  /** No piece of a split holds the separator. */
  lemma {:induction false} SplitPieces(s: string, sep: char)
    ensures forall i :: 0 <= i < |Split(s, sep)| ==> sep !in Split(s, sep)[i]
  {
    if |s| > 0 {
      SplitPieces(s[1..], sep);
    }
  }

  /** Python `sep.join(xs)` for a one-character separator. */
  function Join(xs: seq<string>, sep: char): string
  {
    if |xs| == 0 then ""
    else if |xs| == 1 then xs[0]
    else xs[0] + [sep] + Join(xs[1..], sep)
  }

  /** Python `s.lower()`, restricted to the ASCII letters. */
  function Lower(s: string): (r: string)
    ensures |r| == |s|
    ensures forall i :: 0 <= i < |r| ==> !('A' <= r[i] <= 'Z')
    ensures forall i :: 0 <= i < |s| && !('A' <= s[i] <= 'Z') ==> r[i] == s[i]
  {
    seq(|s|, i requires 0 <= i < |s| =>
      if 'A' <= s[i] <= 'Z' then (s[i] as int - 'A' as int + 'a' as int) as char else s[i])
  }

  /** The leading run counted is exactly the longest prefix of class `k`. */
  lemma {:induction false} LeadingCountMaximal(s: string, k: CharClass)
    ensures forall i :: 0 <= i < LeadingCount(s, k) ==> In(s[i], k)
    ensures LeadingCount(s, k) < |s| ==> !In(s[LeadingCount(s, k)], k)
  {
    if |s| > 0 && In(s[0], k) {
      LeadingCountMaximal(s[1..], k);
      forall i | 0 < i < LeadingCount(s, k) ensures In(s[i], k) { assert s[i] == s[1..][i - 1]; }
    }
  }

  /** The trailing run counted is exactly the longest suffix of class `k`. */
  lemma {:induction false} TrailingCountMaximal(s: string, k: CharClass)
    ensures forall i :: |s| - TrailingCount(s, k) <= i < |s| ==> In(s[i], k)
    ensures TrailingCount(s, k) < |s| ==> !In(s[|s| - TrailingCount(s, k) - 1], k)
  {
    if |s| > 0 && In(s[|s| - 1], k) {
      var init := s[..|s| - 1];
      TrailingCountMaximal(init, k);
      forall i | |s| - TrailingCount(s, k) <= i < |s| - 1 ensures In(s[i], k) { assert s[i] == init[i]; }
    }
  }

  /** `TrimStart` drops exactly the leading run of class `k`. */
  lemma {:induction false} TrimStartDrops(s: string, k: CharClass)
    ensures TrimStart(s, k) == s[LeadingCount(s, k)..]
  {
    if |s| > 0 && In(s[0], k) {
      TrimStartDrops(s[1..], k);
      assert s[1..][LeadingCount(s[1..], k)..] == s[1 + LeadingCount(s[1..], k)..];
    }
  }

  /** `TrimEnd` drops exactly the trailing run of class `k`. */
  lemma {:induction false} TrimEndDrops(s: string, k: CharClass)
    ensures TrimEnd(s, k) == s[..|s| - TrailingCount(s, k)]
  {
    if |s| > 0 && In(s[|s| - 1], k) {
      var init := s[..|s| - 1];
      TrimEndDrops(init, k);
      assert init[..|init| - TrailingCount(init, k)] == s[..|s| - TrailingCount(s, k)];
    }
  }

  /** `TrimStart` drops the leading run of class `k`, every character of it, and nothing after it. */
  lemma TrimStartSpec(s: string, k: CharClass)
    ensures TrimStart(s, k) == s[LeadingCount(s, k)..]
    ensures forall j :: 0 <= j < LeadingCount(s, k) ==> In(s[j], k)
    ensures TrimStart(s, k) == [] || !In(TrimStart(s, k)[0], k)
  {
    TrimStartDrops(s, k);
    LeadingCountMaximal(s, k);
  }

  /** `Strip` keeps a contiguous middle part of `s`. */
  lemma StripSlice(s: string, k: CharClass)
    ensures LeadingCount(s, k) + |Strip(s, k)| <= |s|
    ensures Strip(s, k) == s[LeadingCount(s, k)..LeadingCount(s, k) + |Strip(s, k)|]
  {
    TrimStartDrops(s, k);
    TrimEndDrops(TrimStart(s, k), k);
  }

  /** What `Strip` drops at either end is all of class `k`. */
  lemma StripDropped(s: string, k: CharClass)
    ensures forall i :: 0 <= i < LeadingCount(s, k) ==> In(s[i], k)
    ensures forall i :: LeadingCount(s, k) + |Strip(s, k)| <= i < |s| ==> In(s[i], k)
  {
    var a := LeadingCount(s, k);
    var t := s[a..];
    TrimStartDrops(s, k);
    TrimEndDrops(t, k);
    LeadingCountMaximal(s, k);
    TrailingCountMaximal(t, k);
    forall i | a + |Strip(s, k)| <= i < |s| ensures In(s[i], k) { assert s[i] == t[i - a]; }
  }

  /** Neither end of what `Strip` keeps is of class `k`. */
  lemma StripEnds(s: string, k: CharClass)
    ensures Strip(s, k) == [] || (!In(Strip(s, k)[0], k) && !In(Strip(s, k)[|Strip(s, k)| - 1], k))
  {
    var a := LeadingCount(s, k);
    var t := s[a..];
    var b := TrailingCount(t, k);
    var r := t[..|t| - b];
    TrimStartDrops(s, k);
    TrimEndDrops(t, k);
    assert Strip(s, k) == r;
    LeadingCountMaximal(s, k);
    TrailingCountMaximal(t, k);
    if r != [] {
      assert r[0] == t[0] == s[a];
      assert r[|r| - 1] == t[|t| - b - 1];
    }
  }

  /** A string whose ends are not of class `k` is left alone by `Strip`. */
  lemma StripUnchanged(s: string, k: CharClass)
    requires s == [] || (!In(s[0], k) && !In(s[|s| - 1], k))
    ensures Strip(s, k) == s
  {
  }

  /** Every character of `TrimStart(s, k)` and of `Strip(s, k)` occurs in `s`. */
  lemma StripChars(s: string, k: CharClass)
    ensures forall c :: c in TrimStart(s, k) ==> c in s
    ensures forall c :: c in Strip(s, k) ==> c in s
  {
    var a := LeadingCount(s, k);
    var t := s[a..];
    TrimStartDrops(s, k);
    TrimEndDrops(t, k);
    forall c | c in t ensures c in s {
      var i :| 0 <= i < |t| && t[i] == c;
      assert s[a + i] == c;
    }
    forall c | c in Strip(s, k) ensures c in s {
      var i :| 0 <= i < |Strip(s, k)| && Strip(s, k)[i] == c;
      assert t[i] == c;
    }
  }

  /** Joining the pieces of a split restores the string. */
  lemma {:induction false} JoinSplit(s: string, sep: char)
    ensures Join(Split(s, sep), sep) == s
  {
    if |s| > 0 {
      JoinSplit(s[1..], sep);
      var rest := Split(s[1..], sep);
      if s[0] == sep {
        assert Join([""] + rest, sep) == "" + [sep] + Join(rest, sep);
        assert s == [s[0]] + s[1..];
      } else {
        var r := [[s[0]] + rest[0]] + rest[1..];
        if |rest| == 1 {
          assert Join(rest, sep) == rest[0];
        } else {
          assert Join(rest, sep) == rest[0] + [sep] + Join(rest[1..], sep);
          assert r[1..] == rest[1..];
        }
        assert s == [s[0]] + s[1..];
      }
    }
  }

  lemma {:induction false} SplitNoSep(s: string, sep: char)
    requires sep !in s
    ensures Split(s, sep) == [s]
  {
    if |s| > 0 {
      assert sep !in s[1..] by {
        forall i | 0 <= i < |s| - 1 ensures s[1..][i] != sep { assert s[1..][i] == s[i + 1]; }
      }
      SplitNoSep(s[1..], sep);
      assert [s[0]] + s[1..] == s;
    }
  }

  lemma {:induction false} SplitAfterPiece(a: string, b: string, sep: char)
    requires sep !in a
    ensures Split(a + [sep] + b, sep) == [a] + Split(b, sep)
  {
    if |a| == 0 {
      assert a + [sep] + b == [sep] + b;
      assert ([sep] + b)[1..] == b;
    } else {
      assert sep !in a[1..] by {
        forall i | 0 <= i < |a| - 1 ensures a[1..][i] != sep { assert a[1..][i] == a[i + 1]; }
      }
      SplitAfterPiece(a[1..], b, sep);
      var s := a + [sep] + b;
      assert s[0] == a[0];
      assert s[1..] == a[1..] + [sep] + b;
      assert [a[0]] + a[1..] == a;
    }
  }

  /** Splitting a join of separator-free pieces gives the pieces back. */
  lemma {:induction false} SplitJoin(xs: seq<string>, sep: char)
    requires |xs| >= 1
    requires forall i :: 0 <= i < |xs| ==> sep !in xs[i]
    ensures Split(Join(xs, sep), sep) == xs
  {
    if |xs| == 1 {
      SplitNoSep(xs[0], sep);
    } else {
      SplitJoin(xs[1..], sep);
      SplitAfterPiece(xs[0], Join(xs[1..], sep), sep);
      assert [xs[0]] + xs[1..] == xs;
    }
  }

  /** Appending one more piece to a join. */
  lemma {:induction false} JoinAppend(xs: seq<string>, y: string, sep: char)
    requires |xs| >= 1
    ensures Join(xs + [y], sep) == Join(xs, sep) + [sep] + y
  {
    if |xs| == 1 {
      assert (xs + [y])[1..] == [y];
    } else {
      assert (xs + [y])[1..] == xs[1..] + [y];
      JoinAppend(xs[1..], y, sep);
    }
  }
}
