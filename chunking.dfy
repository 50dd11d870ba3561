/** The two ways bot.js cuts a long reply into Telegram-sized messages: the
    line-accumulating splitter of the `/code` and plain-message handlers, and
    `text.match(/.{1,4000}/g)` of the `/research` and document handlers. */
module Chunking {
  import opened Wrappers
  import opened Seqs
  import opened JsText

  /** The per-message character budget both splitters use. */
  const MESSAGE_LIMIT: nat := 4000

  predicate EndsWithLineFeed(part: string)
  {
    |part| >= 1 && part[|part| - 1] == '\n'
  }

  /** One line and the line feed after it, nothing more. */
  predicate IsSingleLine(part: string)
  {
    EndsWithLineFeed(part) && forall k :: 0 <= k < |part| - 1 ==> part[k] != '\n'
  }

  /** What every part of the line splitter looks like: it ends a line, and it
      is within budget unless it is one over-long line. */
  predicate WellCut(part: string)
  {
    EndsWithLineFeed(part) && (|part| <= MESSAGE_LIMIT || IsSingleLine(part))
  }

  /** Each line with the line feed the splitter appends to it. */
  function Terminated(lines: seq<string>): (r: seq<string>)
    ensures |r| == |lines|
    ensures forall k :: 0 <= k < |lines| ==> r[k] == lines[k] + "\n"
  {
    seq(|lines|, k requires 0 <= k < |lines| => lines[k] + "\n")
  }

  lemma {:induction false} FlattenTerminated(lines: seq<string>)
    requires |lines| >= 1
    ensures Flatten(Terminated(lines)) == Join(lines, "\n") + "\n"
  {
    if |lines| > 1 {
      FlattenTerminated(lines[1..]);
      assert Terminated(lines)[1..] == Terminated(lines[1..]);
    } else {
      assert Terminated(lines)[1..] == [];
    }
  }

  lemma TerminatedStep(lines: seq<string>, i: nat)
    requires i < |lines|
    ensures Flatten(Terminated(lines[..i + 1])) == Flatten(Terminated(lines[..i])) + (lines[i] + "\n")
  {
    assert Terminated(lines[..i + 1]) == Terminated(lines[..i]) + [lines[i] + "\n"];
    FlattenAppend(Terminated(lines[..i]), [lines[i] + "\n"]);
    FlattenSingle(lines[i] + "\n");
  }

  /** The length of the first line of `p`, its line feed included. */
  function LeadLength(p: string): nat
  {
    if p == [] then 0 else if p[0] == '\n' then 1 else 1 + LeadLength(p[1..])
  }

  /** Appending after a line feed does not change the first line. */
  lemma {:induction false} LeadLengthAppend(a: string, b: string)
    requires EndsWithLineFeed(a)
    ensures LeadLength(a + b) == LeadLength(a)
  {
    if a[0] != '\n' {
      assert (a + b)[1..] == a[1..] + b;
      LeadLengthAppend(a[1..], b);
    }
  }

  lemma {:induction false} LeadLengthLine(line: string)
    requires forall k :: 0 <= k < |line| ==> line[k] != '\n'
    ensures LeadLength(line + "\n") == |line| + 1
  {
    if line != [] {
      assert (line + "\n")[1..] == line[1..] + "\n";
      LeadLengthLine(line[1..]);
    }
  }

  /** Consecutive parts are packed: each was closed only because the first
      line of the next one did not fit after it. */
  predicate Packed(parts: seq<string>)
  {
    forall k :: 0 <= k < |parts| - 1 ==>
      |parts[k]| + LeadLength(parts[k + 1]) > MESSAGE_LIMIT
  }

  /** The splitter's state between two lines: the closed parts and the open
      one. */
  ghost predicate SplitterState(parts: seq<string>, current: string)
  {
    && (forall k :: 0 <= k < |parts| ==> WellCut(parts[k]))
    && Packed(parts)
    && (current == "" ==> parts == [])
    && (current != "" ==> WellCut(current))
    && (parts != [] && current != "" ==>
          |parts[|parts| - 1]| + LeadLength(current) > MESSAGE_LIMIT)
  }

  lemma SingleLineOf(line: string)
    requires forall k :: 0 <= k < |line| ==> line[k] != '\n'
    ensures IsSingleLine(line + "\n")
  {
    var p := line + "\n";
    assert forall k :: 0 <= k < |p| - 1 ==> p[k] == line[k];
  }

  lemma PackedSnoc(parts: seq<string>, last: string)
    requires Packed(parts)
    requires parts != [] ==> |parts[|parts| - 1]| + LeadLength(last) > MESSAGE_LIMIT
    ensures Packed(parts + [last])
  {
    var ps := parts + [last];
    forall k | 0 <= k < |ps| - 1
      ensures |ps[k]| + LeadLength(ps[k + 1]) > MESSAGE_LIMIT
    {
      if k < |parts| - 1 {
        assert ps[k] == parts[k] && ps[k + 1] == parts[k + 1];
      } else {
        assert ps[k] == parts[|parts| - 1] && ps[k + 1] == last;
      }
    }
  }

  lemma FlattenSnoc(parts: seq<string>, last: string)
    ensures Flatten(parts + [last]) == Flatten(parts) + last
  {
    FlattenAppend(parts, [last]);
    FlattenSingle(last);
  }

  /** The branch that closes the open part and starts a new one with `line`. */
  lemma CloseStep(parts: seq<string>, current: string, line: string, done: string)
    requires SplitterState(parts, current) && Flatten(parts) + current == done
    requires forall k :: 0 <= k < |line| ==> line[k] != '\n'
    requires |current + line + "\n"| > MESSAGE_LIMIT
    ensures var parts' := if current != "" then parts + [current] else parts;
            SplitterState(parts', line + "\n") && Flatten(parts') + (line + "\n") == done + (line + "\n")
  {
    LeadLengthLine(line);
    SingleLineOf(line);
    if current != "" {
      PackedSnoc(parts, current);
      FlattenSnoc(parts, current);
    }
  }

  /** The branch that appends `line` to the open part. */
  lemma ExtendStep(parts: seq<string>, current: string, line: string, done: string)
    requires SplitterState(parts, current) && Flatten(parts) + current == done
    requires forall k :: 0 <= k < |line| ==> line[k] != '\n'
    requires |current + line + "\n"| <= MESSAGE_LIMIT
    ensures SplitterState(parts, current + line + "\n")
    ensures Flatten(parts) + (current + line + "\n") == done + (line + "\n")
  {
    var next := current + line + "\n";
    assert next == current + (line + "\n");
    if current != "" {
      LeadLengthAppend(current, line + "\n");
    }
  }

  /** After the last line: the open part is pushed and the parts make up the
      text and its final line feed. */
  lemma FinishSplit(text: string, parts: seq<string>, current: string)
    requires SplitterState(parts, current) && current != ""
    requires Flatten(parts) + current == Flatten(Terminated(Split(text, "\n")))
    ensures Flatten(parts + [current]) == text + "\n"
    ensures forall k :: 0 <= k < |parts + [current]| ==> WellCut((parts + [current])[k])
    ensures Packed(parts + [current])
  {
    FlattenTerminated(Split(text, "\n"));
    JoinSplit(text, "\n");
    FlattenSnoc(parts, current);
    PackedSnoc(parts, current);
  }

  /** The splitter of bot.js:400-413 and 741-752: scan `text.split('\n')`,
      accumulate `line + '\n'` into the current part, and close the part when
      the next line would push it over the budget. */
  method SplitLines(text: string) returns (parts: seq<string>)
    ensures Flatten(parts) == text + "\n"
    ensures forall k :: 0 <= k < |parts| ==> WellCut(parts[k])
    ensures Packed(parts)
  {
    var lines := Split(text, "\n");
    parts := [];
    var current := "";
    for i := 0 to |lines|
      invariant Flatten(parts) + current == Flatten(Terminated(lines[..i]))
      invariant SplitterState(parts, current)
      invariant current == "" <==> i == 0
    {
      var line := lines[i];
      NoCharInPiece(line, '\n');
      TerminatedStep(lines, i);
      if |current + line + "\n"| > MESSAGE_LIMIT {
        CloseStep(parts, current, line, Flatten(Terminated(lines[..i])));
        if current != "" {
          parts := parts + [current];
        }
        current := line + "\n";
      } else {
        ExtendStep(parts, current, line, Flatten(Terminated(lines[..i])));
        current := current + line + "\n";
      }
    }
    assert lines[..|lines|] == lines;
    FinishSplit(text, parts, current);
    parts := parts + [current];
  }

  /** What the plain-message and `/code` handlers send for a reply `text`:
      the text alone when it fits, otherwise parts that concatenate to
      `text + "\n"`, each well cut, packed greedily. */
  predicate LineChunked(text: string, parts: seq<string>)
  {
    && (|text| <= MESSAGE_LIMIT ==> parts == [text])
    && (|text| > MESSAGE_LIMIT ==>
          && Flatten(parts) == text + "\n"
          && (forall k :: 0 <= k < |parts| ==> WellCut(parts[k]))
          && Packed(parts))
  }

  /** The reply of bot.js:400-421 and 738-773: SplitLines only when the text
      is over the budget. */
  method LineReply(text: string) returns (parts: seq<string>)
    ensures LineChunked(text, parts)
    ensures parts != []
  {
    if |text| > MESSAGE_LIMIT {
      parts := SplitLines(text);
    } else {
      parts := [text];
    }
  }

  predicate IsNotLineTerminator(c: char)
  {
    !IsLineTerminator(c)
  }

  /** How many leading chars of `s` the regex `.` matches, at most `cap`. */
  function RunLength(s: string, cap: nat): (n: nat)
    ensures n <= cap && n <= |s|
    ensures forall k :: 0 <= k < n ==> !IsLineTerminator(s[k])
    ensures n < cap && n < |s| ==> IsLineTerminator(s[n])
  {
    if cap == 0 || s == [] || IsLineTerminator(s[0]) then 0
    else 1 + RunLength(s[1..], cap - 1)
  }

  /** The successive matches of the global regex `/.{1,4000}/g` in `s`: at a
      line terminator the match attempt fails and the scan moves on; anywhere
      else the greedy quantifier takes as many chars as it can. */
  function Matches(s: string): (ms: seq<string>)
    ensures forall k :: 0 <= k < |ms| ==> 1 <= |ms[k]| <= MESSAGE_LIMIT
    ensures forall k, j :: 0 <= k < |ms| && 0 <= j < |ms[k]| ==> !IsLineTerminator(ms[k][j])
    decreases |s|
  {
    if s == [] then []
    else if IsLineTerminator(s[0]) then Matches(s[1..])
    else
      var n := RunLength(s, MESSAGE_LIMIT);
      [s[..n]] + Matches(s[n..])
  }

  /** `s.match(/.{1,4000}/g)`, which is `null` when nothing matches. */
  function MatchAll(s: string): Option<seq<string>>
  {
    var ms := Matches(s);
    if ms == [] then None else Some(ms)
  }

  /** The regex splitter loses exactly the line terminators: the matches
      concatenate to the text with every terminator removed. */
  lemma {:induction false} MatchesCover(s: string)
    ensures Flatten(Matches(s)) == Filter(IsNotLineTerminator, s)
    decreases |s|
  {
    if s != [] {
      if IsLineTerminator(s[0]) {
        MatchesCover(s[1..]);
      } else {
        var n := RunLength(s, MESSAGE_LIMIT);
        MatchesCover(s[n..]);
        assert s == s[..n] + s[n..];
        FilterAppend(IsNotLineTerminator, s[..n], s[n..]);
        FilterAll(IsNotLineTerminator, s[..n]);
        assert Matches(s)[1..] == Matches(s[n..]);
      }
    }
  }

  /** `match` returns `null` exactly when the text is made of line terminators
      only (or is empty). */
  lemma {:induction false} MatchAllNull(s: string)
    ensures MatchAll(s) == None <==> forall k :: 0 <= k < |s| ==> IsLineTerminator(s[k])
    decreases |s|
  {
    if s != [] {
      MatchAllNull(s[1..]);
      if IsLineTerminator(s[0]) {
        assert Matches(s) == Matches(s[1..]);
        forall k | 0 <= k < |s[1..]| ensures s[1..][k] == s[k + 1] { }
      }
    }
  }

  /** What the `/research` handler sends (bot.js:440-447): the text alone when
      it fits, else the regex matches; `None` stands for the `TypeError` that
      iterating over a `null` match throws. */
  function RegexReply(text: string): (r: Option<seq<string>>)
    ensures |text| <= MESSAGE_LIMIT ==> r == Some([text])
    ensures r.Some? ==> forall k :: 0 <= k < |r.value| ==> |r.value[k]| <= MESSAGE_LIMIT
  {
    if |text| > MESSAGE_LIMIT then MatchAll(text) else Some([text])
  }
}
