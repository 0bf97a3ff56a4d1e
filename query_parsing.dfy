/**
 * The output-parsing half of `prompt_to_queries`: turning the language model's
 * free-text answer into the list of search queries of a session. The model
 * call itself is not part of this module; its answer is an arbitrary string.
 */
module QueryParsing {
  import opened Wrappers
  import opened Text

  /** At most this many queries are kept. */
  const MaxQueries := 5
  /** A cleaned line becomes a query only when it is strictly longer than this. */
  const MinLineLength := 5

  /** `re.sub(r'^\d+[\.\)]\s*', '', s)`: drops a leading "12." or "3)" and the blanks after it. */
  function StripNumbering(s: string): (r: string)
    ensures |r| <= |s|
    ensures (|s| == 0 || !In(s[0], Digit)) ==> r == s
  {
    var n := LeadingCount(s, Digit);
    if 0 < n < |s| && (s[n] == '.' || s[n] == ')') then TrimStart(s[n + 1..], Blank) else s
  }

  /** `re.sub(r'^[-*]\s*', '', s)`: drops a leading bullet and the blanks after it. */
  function StripBullet(s: string): (r: string)
    ensures |r| <= |s|
    ensures (|s| == 0 || (s[0] != '-' && s[0] != '*')) ==> r == s
  {
    if |s| > 0 && (s[0] == '-' || s[0] == '*') then TrimStart(s[1..], Blank) else s
  }

  /**
   * The numbering is removed exactly when the line starts with a run of
   * digits followed by `.` or `)`.
   */
  lemma StripNumberingMarker(s: string)
    ensures var n := LeadingCount(s, Digit);
      && (forall j :: 0 <= j < n ==> In(s[j], Digit))
      && (n < |s| ==> !In(s[n], Digit))
      && (StripNumbering(s) != s <==> 0 < n < |s| && (s[n] == '.' || s[n] == ')'))
  {
    LeadingCountMaximal(s, Digit);
  }

  /**
   * When the numbering is removed, what remains is the line after the marker
   * and the blanks that follow it.
   */
  lemma StripNumberingRest(s: string)
    ensures var n := LeadingCount(s, Digit);
      StripNumbering(s) != s ==>
        exists k :: n + 1 <= k <= |s| && StripNumbering(s) == s[k..]
          && (forall j :: n + 1 <= j < k ==> In(s[j], Blank))
          && (StripNumbering(s) == [] || !In(StripNumbering(s)[0], Blank))
  {
    var n := LeadingCount(s, Digit);
    if 0 < n < |s| && (s[n] == '.' || s[n] == ')') {
      var t := s[n + 1..];
      TrimStartSpec(t, Blank);
      var k := n + 1 + LeadingCount(t, Blank);
      assert t[LeadingCount(t, Blank)..] == s[k..];
      forall j | n + 1 <= j < k ensures In(s[j], Blank) { assert s[j] == t[j - n - 1]; }
    }
  }

  /**
   * The bullet is removed exactly when the line starts with `-` or `*`;
   * then what remains is the line after the bullet and the blanks following it.
   */
  lemma StripBulletSpec(s: string)
    ensures StripBullet(s) != s <==> |s| > 0 && (s[0] == '-' || s[0] == '*')
    ensures StripBullet(s) != s ==>
      exists k :: 1 <= k <= |s| && StripBullet(s) == s[k..]
        && (forall j :: 1 <= j < k ==> In(s[j], Blank))
        && (StripBullet(s) == [] || !In(StripBullet(s)[0], Blank))
  {
    if |s| > 0 && (s[0] == '-' || s[0] == '*') {
      var t := s[1..];
      TrimStartSpec(t, Blank);
      var k := 1 + LeadingCount(t, Blank);
      assert t[LeadingCount(t, Blank)..] == s[k..];
      forall j | 1 <= j < k ensures In(s[j], Blank) { assert s[j] == t[j - 1]; }
      assert |StripBullet(s)| < |s|;
    }
  }

  /** `s.strip('"').strip("'")` */
  function StripQuotes(s: string): (r: string)
    ensures |r| <= |s|
  {
    Strip(Strip(s, Exactly('"')), Exactly('\''))
  }

  /** The per-line cleanup: blanks, then numbering, then a bullet, then quotes. */
  function CleanLine(line: string): (r: string)
    ensures |r| <= |line|
  {
    StripQuotes(StripBullet(StripNumbering(Strip(line, Blank))))
  }

  /** The lines of the answer, as `output.strip().split('\n')`. */
  function Lines(output: string): seq<string>
  {
    Split(Strip(output, Blank), '\n')
  }

  /** The condition `clean_line and len(clean_line) > 5`. */
  predicate LongEnough(q: string)
  {
    q != [] && |q| > MinLineLength
  }

  /** The cleaned lines that are long enough, in order. */
  function KeepLong(cleaned: seq<string>): (r: seq<string>)
    ensures |r| <= |cleaned|
  {
    if |cleaned| == 0 then []
    else
      var rest := KeepLong(cleaned[..|cleaned| - 1]);
      var q := cleaned[|cleaned| - 1];
      if LongEnough(q) then rest + [q] else rest
  }

  /** Every line, cleaned. */
  function CleanAll(lines: seq<string>): (r: seq<string>)
    ensures |r| == |lines|
  {
    if |lines| == 0 then [] else CleanAll(lines[..|lines| - 1]) + [CleanLine(lines[|lines| - 1])]
  }

  /** The queries the line loop collects. */
  function LineQueries(output: string): seq<string>
  {
    KeepLong(CleanAll(Lines(output)))
  }

  /** `[q.strip().strip('"').strip("'") for q in pieces if q.strip()]` */
  function CommaQueries(pieces: seq<string>): (r: seq<string>)
    ensures |r| <= |pieces|
  {
    if |pieces| == 0 then []
    else
      var t := Strip(pieces[0], Blank);
      (if t != [] then [StripQuotes(t)] else []) + CommaQueries(pieces[1..])
  }

  /** No piece has anything but blanks. */
  predicate AllBlank(pieces: seq<string>)
  {
    forall i :: 0 <= i < |pieces| ==> Strip(pieces[i], Blank) == []
  }

  /** The three fallback queries built from the user's own prompt. */
  function Templates(prompt: string): (r: seq<string>)
    ensures |r| == 3
  {
    var base := Lower(prompt);
    [base + " contact information", base + " email phone", base + " address contact details"]
  }

  /**
   * The list before the cut: the line queries; failing those, when the answer
   * has a comma, the comma queries; failing those, the templates.
   */
  function Candidates(output: string, prompt: string): (r: seq<string>)
    ensures |r| >= 1
  {
    var lineQueries := LineQueries(output);
    if lineQueries != [] then lineQueries
    else if ',' in output && CommaQueries(Split(output, ',')) != [] then CommaQueries(Split(output, ','))
    else Templates(prompt)
  }

  /** The query list `prompt_to_queries` returns for the model's answer `output`. */
  function ParseQueries(output: string, prompt: string): (r: seq<string>)
    ensures 1 <= |r| <= MaxQueries
  {
    var all := Candidates(output, prompt);
    all[..Min(MaxQueries, |all|)]
  }

  /** The parsing as the source performs it: a loop over the lines, then the two fallbacks and the cut. */
  method ExtractQueries(output: string, prompt: string) returns (queries: seq<string>)
    ensures queries == ParseQueries(output, prompt)
    ensures 1 <= |queries| <= MaxQueries
  {
    queries := CollectLines(Split(Strip(output, Blank), '\n'));
    assert queries == LineQueries(output);
    if queries == [] && ',' in output {
      queries := CommaQueries(Split(output, ','));
    }
    if queries == [] {
      queries := Templates(prompt);
    }
    assert queries == Candidates(output, prompt);
    queries := queries[..Min(MaxQueries, |queries|)];
  }

  /** The line loop of `prompt_to_queries`: each line cleaned, kept when long enough. */
  method CollectLines(lines: seq<string>) returns (queries: seq<string>)
    ensures queries == KeepLong(CleanAll(lines))
  {
    queries := [];
    var i := 0;
    while i < |lines|
      invariant 0 <= i <= |lines|
      invariant queries == KeepLong(CleanAll(lines[..i]))
    {
      var cleanLine := CleanLine(lines[i]);
      CleanAllSnoc(lines, i);
      KeepLongSnoc(CleanAll(lines[..i]), cleanLine);
      if LongEnough(cleanLine) {
        queries := queries + [cleanLine];
      }
      i := i + 1;
    }
    assert lines[..|lines|] == lines;
  }

  lemma CleanAllSnoc(lines: seq<string>, i: nat)
    requires i < |lines|
    ensures CleanAll(lines[..i + 1]) == CleanAll(lines[..i]) + [CleanLine(lines[i])]
  {
    var prefix := lines[..i + 1];
    assert prefix[..i] == lines[..i];
    assert prefix[i] == lines[i];
  }

  lemma {:induction false} CleanAllAt(lines: seq<string>, i: nat)
    requires i < |lines|
    ensures CleanAll(lines)[i] == CleanLine(lines[i])
  {
    if i < |lines| - 1 {
      CleanAllAt(lines[..|lines| - 1], i);
    }
  }

  /** Every character of a cleaned line comes from the line. */
  lemma CleanLineChars(line: string)
    ensures forall c :: c in CleanLine(line) ==> c in line
  {
    var s1 := Strip(line, Blank);
    var s2 := StripNumbering(s1);
    var s3 := StripBullet(s2);
    var s4 := Strip(s3, Exactly('"'));
    StripChars(line, Blank);
    var n := LeadingCount(s1, Digit);
    if 0 < n < |s1| && (s1[n] == '.' || s1[n] == ')') {
      StripChars(s1[n + 1..], Blank);
      SuffixChars(s1, n + 1);
    }
    if |s2| > 0 && (s2[0] == '-' || s2[0] == '*') {
      StripChars(s2[1..], Blank);
      SuffixChars(s2, 1);
    }
    StripChars(s3, Exactly('"'));
    StripChars(s4, Exactly('\''));
  }

  lemma SuffixChars(s: string, a: nat)
    requires a <= |s|
    ensures forall c :: c in s[a..] ==> c in s
  {
    forall c | c in s[a..] ensures c in s {
      var i :| 0 <= i < |s| - a && s[a..][i] == c;
      assert s[a + i] == c;
    }
  }

  lemma KeepLongSnoc(cleaned: seq<string>, q: string)
    ensures KeepLong(cleaned + [q]) == KeepLong(cleaned) + (if LongEnough(q) then [q] else [])
  {
    assert (cleaned + [q])[..|cleaned|] == cleaned;
  }

  /** A string is kept exactly when it is one of the cleaned lines and long enough. */
  lemma {:induction false} KeepLongMembers(cleaned: seq<string>, q: string)
    ensures q in KeepLong(cleaned) <==> (LongEnough(q) && q in cleaned)
  {
    if |cleaned| > 0 {
      var init := cleaned[..|cleaned| - 1];
      KeepLongMembers(init, q);
      assert cleaned == init + [cleaned[|cleaned| - 1]];
    }
  }

  /** The comma fallback yields nothing exactly when every piece is blank. */
  lemma {:induction false} CommaQueriesEmpty(pieces: seq<string>)
    ensures CommaQueries(pieces) == [] <==> AllBlank(pieces)
  {
    if |pieces| > 0 {
      CommaQueriesEmpty(pieces[1..]);
      assert forall i :: 1 <= i < |pieces| ==> pieces[1..][i - 1] == pieces[i];
    }
  }

  /**
   * A string is a comma-derived query exactly when some non-blank piece,
   * with its blanks and quotes removed, is that string.
   */
  lemma {:induction false} CommaQueriesMembers(pieces: seq<string>, q: string)
    ensures q in CommaQueries(pieces) <==>
      exists i :: 0 <= i < |pieces| && Strip(pieces[i], Blank) != [] && StripQuotes(Strip(pieces[i], Blank)) == q
  {
    if |pieces| > 0 {
      var t := Strip(pieces[0], Blank);
      CommaQueriesMembers(pieces[1..], q);
      if q in CommaQueries(pieces) {
        if !(t != [] && q == StripQuotes(t)) {
          var i :| 0 <= i < |pieces[1..]| && Strip(pieces[1..][i], Blank) != [] && StripQuotes(Strip(pieces[1..][i], Blank)) == q;
          assert pieces[i + 1] == pieces[1..][i];
        }
      } else {
        forall i | 0 <= i < |pieces| && Strip(pieces[i], Blank) != []
          ensures StripQuotes(Strip(pieces[i], Blank)) != q
        {
          if i > 0 {
            assert pieces[1..][i - 1] == pieces[i];
          }
        }
      }
    }
  }

  /**
   * When the answer has a usable line, every query is one: a cleaned line of
   * the answer, longer than five characters and without a line break.
   */
  lemma ParseQueriesFromLines(output: string, prompt: string)
    ensures LineQueries(output) != [] ==> forall q :: q in ParseQueries(output, prompt) ==>
      |q| > MinLineLength && '\n' !in q && exists i :: 0 <= i < |Lines(output)| && CleanLine(Lines(output)[i]) == q
  {
    var lines := Lines(output);
    var cleaned := CleanAll(lines);
    SplitPieces(Strip(output, Blank), '\n');
    forall q | LineQueries(output) != [] && q in ParseQueries(output, prompt)
      ensures |q| > MinLineLength && '\n' !in q && exists i :: 0 <= i < |lines| && CleanLine(lines[i]) == q
    {
      assert q in KeepLong(cleaned);
      KeepLongMembers(cleaned, q);
      var i :| 0 <= i < |cleaned| && cleaned[i] == q;
      CleanAllAt(lines, i);
      CleanLineChars(lines[i]);
    }
  }

  /** Every line that cleans up to something long enough is a candidate, so at least one query is a line. */
  lemma LongLineIsKept(output: string, i: nat)
    requires i < |Lines(output)| && LongEnough(CleanLine(Lines(output)[i]))
    ensures LineQueries(output) != []
  {
    var cleaned := CleanAll(Lines(output));
    CleanAllAt(Lines(output), i);
    KeepLongMembers(cleaned, cleaned[i]);
  }

  /** When no line is usable and no comma piece is either, the three templates are returned. */
  lemma ParseQueriesFallback(output: string, prompt: string)
    requires LineQueries(output) == []
    requires ',' !in output || AllBlank(Split(output, ','))
    ensures ParseQueries(output, prompt) == Templates(prompt)
  {
    var pieces := Split(output, ',');
    if ',' in output {
      CommaQueriesEmpty(pieces);
      assert CommaQueries(pieces) == [];
    }
    var t := Templates(prompt);
    assert t[..Min(MaxQueries, |t|)] == t;
  }

  /** When no line is usable but a comma piece is, every query is such a piece, cleaned. */
  lemma ParseQueriesFromCommas(output: string, prompt: string)
    requires LineQueries(output) == [] && ',' in output
    requires !AllBlank(Split(output, ','))
    ensures forall q :: q in ParseQueries(output, prompt) ==>
      exists i :: 0 <= i < |Split(output, ',')| && Strip(Split(output, ',')[i], Blank) != []
        && StripQuotes(Strip(Split(output, ',')[i], Blank)) == q
  {
    var pieces := Split(output, ',');
    CommaQueriesEmpty(pieces);
    forall q | q in ParseQueries(output, prompt)
      ensures exists i :: 0 <= i < |pieces| && Strip(pieces[i], Blank) != [] && StripQuotes(Strip(pieces[i], Blank)) == q
    {
      assert q in CommaQueries(pieces);
      CommaQueriesMembers(pieces, q);
    }
  }

  lemma NoUsableLine(output: string)
    requires output == "\"\",ab"
    ensures LineQueries(output) == []
  {
    StripUnchanged(output, Blank);
    SplitNoSep(output, '\n');
    assert Lines(output) == [output];
    assert StripNumbering(output) == output;
    assert StripBullet(output) == output;
    var rest := output[1..][1..];
    assert rest == ",ab";
    assert TrimStart(rest, Exactly('"')) == rest;
    assert TrimStart(output[1..], Exactly('"')) == rest;
    assert TrimStart(output, Exactly('"')) == rest;
    StripUnchanged(rest, Exactly('"'));
    StripUnchanged(rest, Exactly('\''));
    assert CleanLine(output) == rest;
    assert CleanAll([output]) == [rest];
    assert !LongEnough(rest);
  }

  lemma QuotePieceBecomesEmpty(output: string)
    requires output == "\"\",ab"
    ensures CommaQueries(Split(output, ',')) == ["", "ab"]
  {
    var quotes, ab := output[..2], output[3..];
    assert output == quotes + [','] + ab;
    SplitAfterPiece(quotes, ab, ',');
    SplitNoSep(ab, ',');
    var pieces := Split(output, ',');
    assert pieces == [quotes, ab];
    StripUnchanged(quotes, Blank);
    assert TrimStart(quotes, Exactly('"')) == "";
    assert StripQuotes(quotes) == "";
    StripUnchanged(ab, Blank);
    StripUnchanged(ab, Exactly('"'));
    StripUnchanged(ab, Exactly('\''));
    assert pieces[1..] == [ab];
    assert CommaQueries(pieces[1..]) == [ab];
  }

  /**
   * The comma fallback tests for blankness before it strips the quotes, so a
   * piece made of quotes alone becomes an empty query (whatever the prompt).
   */
  lemma CommaFallbackYieldsEmptyQuery(output: string, prompt: string)
    requires output == "\"\",ab"
    ensures "" in ParseQueries(output, prompt)
  {
    NoUsableLine(output);
    QuotePieceBecomesEmpty(output);
    assert output[2] == ',';
    var all := Candidates(output, prompt);
    assert all == ["", "ab"];
    assert ParseQueries(output, prompt) == all;
    assert all[0] == "";
  }
}
