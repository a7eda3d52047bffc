/** The `.gitignore` the local store keeps so that its runtime files stay private. */
module PrivateIgnore {
  const PATTERNS: seq<string> := [".mcp-sessions.json", "*.lock", ".*.tmp", ".local/"]

  function ChopReturn(s: string): string {
    if s != [] && s[|s| - 1] == '\r' then s[..|s| - 1] else s
  }

  /** One more character after the lines so far. */
  function Extend(lines: seq<string>, c: char): (r: seq<string>)
    requires lines != []
    ensures r != []
  {
    var n := |lines| - 1;
    if c == '\n' then lines[..n] + [ChopReturn(lines[n])] + [""] else lines[..n] + [lines[n] + [c]]
  }

  /** `text.split(/\r?\n/)`, read from left to right. */
  function Lines(text: string): (lines: seq<string>)
    ensures lines != []
  {
    if text == "" then [""] else Extend(Lines(text[..|text| - 1]), text[|text| - 1])
  }

  function Join(parts: seq<string>): string {
    if parts == [] then ""
    else if |parts| == 1 then parts[0]
    else parts[0] + "\n" + Join(parts[1..])
  }

  function Without(patterns: seq<string>, lines: seq<string>): (r: seq<string>)
    ensures forall p :: p in r <==> p in patterns && p !in lines
    ensures r == [] <==> forall p <- patterns :: p in lines
  {
    if patterns == [] then []
    else
      assert patterns == [patterns[0]] + patterns[1..];
      (if patterns[0] in lines then [] else [patterns[0]]) + Without(patterns[1..], lines)
  }

  function Missing(patterns: seq<string>, text: string): seq<string> { Without(patterns, Lines(text)) }

  /** The old text, with its last line ended. */
  function Front(text: string): string {
    if text == "" || text[|text| - 1] == '\n' then text else text + "\n"
  }

  /** What ensurePrivateRuntimeIgnore leaves in the file when it holds `text` (empty when absent). */
  function Extended(patterns: seq<string>, text: string): string {
    var missing := Missing(patterns, text);
    if missing == [] then text
    else
      Front(text) + Join(missing) + "\n"
  }

  predicate Plain(s: string) { '\n' !in s && '\r' !in s }

  /** The store's own patterns are single lines, as the lemmas below ask. */
  lemma PatternsArePlain()
    ensures forall p <- PATTERNS :: Plain(p)
  {
    forall p <- PATTERNS ensures Plain(p) {
      var i :| 0 <= i < |PATTERNS| && PATTERNS[i] == p;
      assert i == 0 || i == 1 || i == 2 || i == 3;
    }
  }

  /** The lines of a text once a line end closes its last one. */
  function Closed(lines: seq<string>): seq<string>
    requires lines != []
  {
    lines[..|lines| - 1] + [ChopReturn(lines[|lines| - 1])]
  }

  lemma ExtendIsLocal(front: seq<string>, lines: seq<string>, c: char)
    requires lines != []
    ensures Extend(front + lines, c) == front + Extend(lines, c)
  {
    assert (front + lines)[..|front + lines| - 1] == front + lines[..|lines| - 1];
  }

  lemma LinesOfAppended(text: string, c: char)
    ensures Lines(text + [c]) == Extend(Lines(text), c)
  {
    assert (text + [c])[..|text|] == text;
  }

  lemma {:induction false} LinesOfJoined(a: string, b: string)
    ensures Lines(a + "\n" + b) == Closed(Lines(a)) + Lines(b)
  {
    if b == "" {
      assert a + "\n" + b == a + ['\n'];
      LinesOfAppended(a, '\n');
    } else {
      var shorter, c := b[..|b| - 1], b[|b| - 1];
      LinesOfJoined(a, shorter);
      assert a + "\n" + b == (a + "\n" + shorter) + [c];
      LinesOfAppended(a + "\n" + shorter, c);
      ExtendIsLocal(Closed(Lines(a)), Lines(shorter), c);
    }
  }

  lemma ClosedKeepsPlainLines(lines: seq<string>, p: string)
    requires lines != [] && p in lines && Plain(p)
    ensures p in Closed(lines)
  {
    var i :| 0 <= i < |lines| && lines[i] == p;
    assert ChopReturn(p) == p;
    assert Closed(lines)[i] == p;
  }

  lemma {:induction false} PlainIsOneLine(p: string)
    requires Plain(p)
    ensures Lines(p) == [p]
  {
    if p != "" {
      PlainIsOneLine(p[..|p| - 1]);
      assert p == p[..|p| - 1] + [p[|p| - 1]];
    }
  }

  /** A line that is plain text survives whatever is appended after a line end. */
  lemma PlainLinesSurvive(a: string, b: string, p: string)
    requires Plain(p)
    ensures p in Lines(a) || p in Lines(b) ==> p in Lines(a + "\n" + b)
  {
    LinesOfJoined(a, b);
    if p in Lines(a) { ClosedKeepsPlainLines(Lines(a), p); }
  }

  lemma {:induction false} JoinedPartsAreLines(parts: seq<string>, p: string)
    requires p in parts && forall q <- parts :: Plain(q)
    ensures p in Lines(Join(parts) + "\n")
  {
    PlainIsOneLine(p);
    if |parts| == 1 {
      PlainLinesSurvive(p, "", p);
      assert p + "\n" + "" == Join(parts) + "\n";
    } else {
      var rest := Join(parts[1..]) + "\n";
      assert Join(parts) + "\n" == parts[0] + "\n" + rest;
      if p != parts[0] { JoinedPartsAreLines(parts[1..], p); }
      PlainLinesSurvive(parts[0], rest, p);
    }
  }

  lemma LinesBeforeAddition(text: string, added: string, p: string)
    requires Plain(p) && "" in Lines(added)
    ensures p in Lines(text) || p in Lines(added) ==> p in Lines(Front(text) + added)
  {
    assert Lines("") == [""];
    if text == "" {
      assert Front(text) + added == added;
    } else if text[|text| - 1] == '\n' {
      var a := text[..|text| - 1];
      assert text == a + "\n" + "" && Front(text) + added == a + "\n" + added;
      LinesOfJoined(a, "");
      LinesOfJoined(a, added);
    } else {
      PlainLinesSurvive(text, added, p);
    }
  }

  /**
   The old text is a prefix and every private pattern becomes a line. Every old line stays one, but
   for a last line that was not ended and holds a carriage return at its end, which is taken into the
   line end put after it; it stays without it.
   */
  lemma ExtendedIsSafe(patterns: seq<string>, text: string)
    requires forall q <- patterns :: Plain(q)
    ensures text <= Extended(patterns, text)
    ensures Extended(patterns, text) == text || Keeps(Lines(text), Lines(Extended(patterns, text)))
    ensures forall p | Plain(p) :: p in Lines(text) ==> p in Lines(Extended(patterns, text))
    ensures forall p <- patterns :: p in Lines(Extended(patterns, text))
  {
    var missing := Missing(patterns, text);
    if missing != [] {
      ExtendedKeepsLines(patterns, text);
      forall p | Plain(p) && (p in Lines(text) || p in missing)
        ensures p in Lines(Extended(patterns, text))
      {
        ExtendedKeepsLine(patterns, text, p);
      }
    }
  }

  /** `after` holds all of `before`, but for a carriage return at the end of its last line. */
  predicate Keeps(before: seq<string>, after: seq<string>)
    requires before != []
  {
    var last := before[|before| - 1];
    && ChopReturn(last) in after
    && forall p <- before :: p in after || (p == last && ChopReturn(p) != p)
  }

  lemma ClosedKeeps(lines: seq<string>, more: seq<string>)
    requires lines != []
    ensures Keeps(lines, Closed(lines) + more)
  {
    var n, after := |lines| - 1, Closed(lines) + more;
    assert after[n] == ChopReturn(lines[n]);
    forall p <- lines ensures p in after || (p == lines[n] && ChopReturn(p) != p) {
      var i :| 0 <= i <= n && lines[i] == p;
      if i < n { assert after[i] == p; }
    }
  }

  lemma EndedKeeps(front: seq<string>, more: seq<string>)
    requires "" in more
    ensures Keeps(front + [""], front + more)
  {
    assert (front + [""])[|front|] == "";
  }

  /** The old text with its last line ended, however it was. */
  lemma FrontOf(text: string, added: string)
    ensures text == "" ==> Front(text) + added == added
    ensures text != "" && text[|text| - 1] == '\n' ==>
      text == text[..|text| - 1] + "\n" + "" && Front(text) + added == text[..|text| - 1] + "\n" + added
    ensures text != "" && text[|text| - 1] != '\n' ==> Front(text) + added == text + "\n" + added
  {
  }

  lemma FrontKeeps(text: string, added: string)
    requires "" in Lines(added)
    ensures Keeps(Lines(text), Lines(Front(text) + added))
  {
    FrontOf(text, added);
    var empty := Lines("");
    if text == "" {
      assert empty == [""];
    } else if text[|text| - 1] == '\n' {
      var a := text[..|text| - 1];
      LinesOfJoined(a, "");
      LinesOfJoined(a, added);
      assert empty == [""];
      EndedKeeps(Closed(Lines(a)), Lines(added));
    } else {
      LinesOfJoined(text, added);
      ClosedKeeps(Lines(text), Lines(added));
    }
  }

  lemma ExtendedBy(patterns: seq<string>, text: string, joined: string)
    requires Missing(patterns, text) != [] && Join(Missing(patterns, text)) == joined
    ensures Extended(patterns, text) == Front(text) + (joined + "\n")
  {
  }

  lemma ExtendedKeepsLines(patterns: seq<string>, text: string)
    requires Missing(patterns, text) != []
    ensures Keeps(Lines(text), Lines(Extended(patterns, text)))
  {
    var joined := Join(Missing(patterns, text));
    ExtendedBy(patterns, text, joined);
    EndsWithEmptyLine(joined);
    FrontKeeps(text, joined + "\n");
  }

  lemma OpenReturnIsALine(p: string)
    requires Plain(p)
    ensures Lines(p + ['\r']) == [p + ['\r']] && Closed([p + ['\r']]) == [p]
  {
    PlainIsOneLine(p);
    LinesOfAppended(p, '\r');
  }

  lemma EndedPatternIsALine(q: string)
    requires Plain(q)
    ensures Lines(q + ['\n']) == [q, ""]
  {
    PlainIsOneLine(q);
    LinesOfAppended(q, '\n');
  }

  /** That exception is real: one line with an open carriage return, and a pattern to add. */
  lemma AnOpenReturnIsTaken(p: string, q: string)
    requires Plain(p) && Plain(q)
    ensures var text := p + ['\r']; text in Lines(text) && text !in Lines(Extended([q], text))
  {
    var text := p + ['\r'];
    OpenReturnIsALine(p);
    EndedPatternIsALine(q);
    assert text[|p|] == '\r' && '\r' !in q;
    OnePatternMissing(q, text);
    ExtendedBy([q], text, q);
    FrontOf(text, q + ['\n']);
    LinesOfJoined(text, q + ['\n']);
    assert Lines(Extended([q], text)) == [p, q, ""];
  }

  lemma OnePatternMissing(q: string, text: string)
    requires q !in Lines(text)
    ensures Missing([q], text) == [q] && Join([q]) == q
  {
  }

  lemma ExtendedKeepsLine(patterns: seq<string>, text: string, p: string)
    requires forall q <- patterns :: Plain(q)
    requires Plain(p) && Missing(patterns, text) != [] && (p in Lines(text) || p in Missing(patterns, text))
    ensures p in Lines(Extended(patterns, text))
  {
    var missing := Missing(patterns, text);
    var added := Join(missing) + "\n";
    EndsWithEmptyLine(Join(missing));
    if p in missing { JoinedPartsAreLines(missing, p); }
    LinesBeforeAddition(text, added, p);
    assert Extended(patterns, text) == Front(text) + added;
  }

  lemma EndsWithEmptyLine(a: string)
    ensures "" in Lines(a + "\n")
  {
    assert Lines("") == [""];
    assert a + "\n" == a + "\n" + "";
    LinesOfJoined(a, "");
  }

  /** Running it again changes nothing, and it changes nothing exactly when no pattern is missing. */
  lemma ExtendedIsIdempotent(patterns: seq<string>, text: string)
    requires forall q <- patterns :: Plain(q)
    ensures Extended(patterns, Extended(patterns, text)) == Extended(patterns, text)
    ensures Extended(patterns, text) == text <==> forall p <- patterns :: p in Lines(text)
  {
    ExtendedIsSafe(patterns, text);
  }

  /** Nothing else is added: each line of the extended text is an old one, closed, a missing pattern, or empty. */
  lemma ExtendedAddsOnlyPatterns(patterns: seq<string>, text: string, line: string)
    requires (forall q <- patterns :: Plain(q)) && line in Lines(Extended(patterns, text))
    ensures line == "" || line in Lines(text) || line in Closed(Lines(text))
            || (line in patterns && line !in Lines(text))
  {
    var missing := Missing(patterns, text);
    if missing != [] {
      var joined := Join(missing);
      ExtendedBy(patterns, text, joined);
      JoinedLinesAreParts(missing, line);
      FrontAdds(text, joined + "\n", line);
    }
  }

  lemma {:induction false} JoinedLinesAreParts(parts: seq<string>, line: string)
    requires parts != [] && forall q <- parts :: Plain(q)
    ensures line in Lines(Join(parts) + "\n") ==> line == "" || line in parts
  {
    PlainIsOneLine(parts[0]);
    if |parts| == 1 {
      EndedPatternIsALine(parts[0]);
      assert Join(parts) + "\n" == parts[0] + ['\n'];
    } else {
      JoinedLinesAreParts(parts[1..], line);
      var rest := Join(parts[1..]) + "\n";
      assert Join(parts) + "\n" == parts[0] + "\n" + rest;
      LinesOfJoined(parts[0], rest);
    }
  }

  lemma FrontAdds(text: string, added: string, line: string)
    requires line in Lines(Front(text) + added)
    ensures line in Closed(Lines(text)) || line in Lines(text) || line in Lines(added)
  {
    FrontOf(text, added);
    if text != "" && text[|text| - 1] == '\n' {
      LinesOfJoined(text[..|text| - 1], "");
      LinesOfJoined(text[..|text| - 1], added);
    } else if text != "" {
      LinesOfJoined(text, added);
    }
  }
}
