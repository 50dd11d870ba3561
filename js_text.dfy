/** JavaScript string semantics the bots rely on, over `string` = `seq<char>`.
    A `char` is one Unicode scalar value, so `.length`, `substring` and
    `slice` agree with JavaScript's exactly on text inside the Basic
    Multilingual Plane, where one scalar value is one UTF-16 code unit. */
module JsText {

  /** `t` occurs in `s` starting at index `i`. */
  predicate OccursAt(s: string, t: string, i: int)
  {
    0 <= i && i + |t| <= |s| && s[i..i + |t|] == t
  }

  /** `s.startsWith(t)`. */
  predicate StartsWith(s: string, t: string)
  {
    OccursAt(s, t, 0)
  }

  /** `s.indexOf(t, from)`: the first index at or after `from` where `t`
      occurs, or -1 when there is none. */
  function IndexFrom(s: string, t: string, from: nat): (r: int)
    requires from <= |s|
    ensures r == -1 || (from <= r && OccursAt(s, t, r))
    ensures forall i :: from <= i && (r == -1 || i < r) ==> !OccursAt(s, t, i)
    decreases |s| - from
  {
    if OccursAt(s, t, from) then from
    else if from == |s| then -1
    else IndexFrom(s, t, from + 1)
  }

  /** `s.indexOf(t)`. */
  function IndexOf(s: string, t: string): int
  {
    IndexFrom(s, t, 0)
  }

  /** `s.includes(t)`. */
  predicate Contains(s: string, t: string)
  {
    IndexOf(s, t) >= 0
  }

  /** A witness occurrence is enough to make `includes` true. */
  lemma ContainsAt(s: string, t: string, i: int)
    requires OccursAt(s, t, i)
    ensures Contains(s, t)
  {
  }

  /** `Contains` holds exactly when some occurrence exists. */
  lemma ContainsWitness(s: string, t: string)
    requires Contains(s, t)
    ensures OccursAt(s, t, IndexOf(s, t))
  {
  }

  /** Every char of a string that occurs is a char of the text, and
      so is every adjacent pair of them. */
  lemma OccurrenceParts(s: string, t: string)
    ensures Contains(s, t) ==> forall j :: 0 <= j < |t| ==> t[j] in s
    ensures Contains(s, t) && |t| >= 2 ==>
              exists i :: 0 <= i < |s| - 1 && s[i] == t[0] && s[i + 1] == t[1]
  {
    if Contains(s, t) {
      var i := IndexOf(s, t);
      assert s[i..i + |t|] == t;
      forall j | 0 <= j < |t|
        ensures t[j] in s
      {
        assert s[i + j] == t[j];
      }
      if |t| >= 2 {
        assert s[i] == t[0] && s[i + 1] == t[1];
      }
    }
  }

  /** The first occurrence determines `indexOf`. */
  lemma IndexOfIs(s: string, t: string, r: int)
    requires OccursAt(s, t, r)
    requires forall i :: 0 <= i < r ==> !OccursAt(s, t, i)
    ensures IndexOf(s, t) == r
  {
  }

  /** `keywords.some(kw => s.includes(kw))`. */
  predicate ContainsAny(s: string, keywords: seq<string>)
  {
    exists k :: 0 <= k < |keywords| && Contains(s, keywords[k])
  }

  lemma OccursInPrefix(s: string, t: string, n: nat, j: int)
    requires n <= |s| && OccursAt(s[..n], t, j)
    ensures OccursAt(s, t, j)
  {
    assert s[..n][j..j + |t|] == s[j..j + |t|];
  }

  /** `s.split(sep)` for a non-empty separator: the pieces between the
      successive leftmost occurrences of `sep`. */
  function Split(s: string, sep: string): (parts: seq<string>)
    requires sep != ""
    ensures |parts| >= 1
    ensures forall k :: 0 <= k < |parts| ==> !Contains(parts[k], sep)
    decreases |s|
  {
    var i := IndexOf(s, sep);
    if i < 0 then [s]
    else
      var head := s[..i];
      assert !Contains(head, sep) by {
        if Contains(head, sep) {
          OccursInPrefix(s, sep, i, IndexOf(head, sep));
        }
      }
      [head] + Split(s[i + |sep|..], sep)
  }

  /** `parts.join(sep)`. */
  function Join(parts: seq<string>, sep: string): string
  {
    if |parts| == 0 then ""
    else if |parts| == 1 then parts[0]
    else parts[0] + sep + Join(parts[1..], sep)
  }

  /** Joining the pieces of a split with the same separator gives back the
      original string. */
  lemma JoinCons(head: string, tail: seq<string>, sep: string)
    requires |tail| >= 1
    ensures Join([head] + tail, sep) == head + sep + Join(tail, sep)
  {
    assert ([head] + tail)[1..] == tail;
  }

  lemma SplitAround(s: string, sep: string, i: int)
    requires 0 <= i && OccursAt(s, sep, i)
    ensures s == s[..i] + sep + s[i + |sep|..]
  {
    assert s == s[..i] + s[i..i + |sep|] + s[i + |sep|..];
  }

  /** Joining the pieces of a split with the same separator gives back the
      original string. */
  lemma {:induction false} JoinSplit(s: string, sep: string)
    requires sep != ""
    ensures Join(Split(s, sep), sep) == s
    decreases |s|
  {
    var i := IndexOf(s, sep);
    if i >= 0 {
      assert OccursAt(s, sep, i);
      var rest := s[i + |sep|..];
      var tail := Split(rest, sep);
      assert Split(s, sep) == [s[..i]] + tail;
      JoinSplit(rest, sep);
      JoinCons(s[..i], tail, sep);
      SplitAround(s, sep, i);
    } else {
      assert Split(s, sep) == [s];
    }
  }

  /** Joining one more piece appends the separator and the piece. */
  lemma {:induction false} JoinSnoc(parts: seq<string>, x: string, sep: string)
    requires |parts| >= 1
    ensures Join(parts + [x], sep) == Join(parts, sep) + sep + x
  {
    if |parts| > 1 {
      assert (parts + [x])[1..] == parts[1..] + [x];
      JoinSnoc(parts[1..], x, sep);
    } else {
      assert (parts + [x])[1..] == [x];
    }
  }

  /** A string starting with `sep` splits into at least two pieces, the first
      of them empty. */
  lemma SplitLeading(s: string, sep: string)
    requires sep != "" && StartsWith(s, sep)
    ensures |Split(s, sep)| >= 2 && Split(s, sep)[0] == ""
  {
    assert IndexOf(s, sep) == 0;
  }

  /** A piece produced by `split('\n')` holds no line feed. */
  lemma NoCharInPiece(piece: string, c: char)
    requires !Contains(piece, [c])
    ensures forall k :: 0 <= k < |piece| ==> piece[k] != c
  {
    forall k | 0 <= k < |piece|
      ensures piece[k] != c
    {
      assert !OccursAt(piece, [c], k);
      assert piece[k..k + 1] == [piece[k]];
    }
  }

  /** The start index `Array.prototype.slice(start)` uses on a sequence of
      length `len`: a negative start counts from the end, then both ends clamp. */
  function SliceStart(len: nat, start: int): (k: nat)
    ensures k <= len
  {
    if start < 0 then (if len + start < 0 then 0 else len + start)
    else if start > len then len
    else start
  }

  /** `s.slice(start)` on a string or an array. */
  function Slice<T>(s: seq<T>, start: int): seq<T>
  {
    s[SliceStart(|s|, start)..]
  }

  /** `s.substring(0, n)` for `n >= 0`. */
  function Prefix<T>(s: seq<T>, n: nat): seq<T>
  {
    if n < |s| then s[..n] else s
  }

  /** `toLowerCase` on one char. Only the ASCII letters are mapped; the
      texts these bots classify are Arabic (which has no case) and English. */
  function LowerChar(c: char): char
  {
    if 'A' <= c <= 'Z' then (c as int + 32) as char else c
  }

  /** `s.toLowerCase()`, ASCII letters only (see LowerChar). */
  function ToLower(s: string): (r: string)
    ensures |r| == |s|
    ensures forall k :: 0 <= k < |s| ==> r[k] == LowerChar(s[k])
  {
    seq(|s|, k requires 0 <= k < |s| => LowerChar(s[k]))
  }

  /** Lower-casing both sides keeps an occurrence where it was, so a keyword
      written in lower case is found whatever the case of the text. */
  lemma LowerKeepsOccurrence(s: string, t: string, i: int)
    requires OccursAt(s, t, i)
    ensures OccursAt(ToLower(s), ToLower(t), i)
  {
    forall k | 0 <= k < |t|
      ensures ToLower(s)[i..i + |t|][k] == ToLower(t)[k]
    {
      assert s[i..i + |t|][k] == t[k];
    }
  }

  /** The LineTerminator code points of ECMAScript: LF, CR, LS and PS. Regex
      `.` matches any char except these. */
  predicate IsLineTerminator(c: char)
  {
    c as int == 0x0A || c as int == 0x0D || c as int == 0x2028 || c as int == 0x2029
  }

  /** ECMAScript's WhiteSpace and LineTerminator code points together: the
      class `\s` of regular expressions and what `trim` removes. */
  predicate IsJsSpace(c: char)
  {
    var n := c as int;
    n == 0x09 || n == 0x0B || n == 0x0C || n == 0x20 || n == 0xA0 || n == 0x1680
    || (0x2000 <= n <= 0x200A) || n == 0x202F || n == 0x205F || n == 0x3000
    || n == 0xFEFF || IsLineTerminator(c)
  }

  /** `s.trimStart()`. */
  function TrimStart(s: string): (r: string)
    ensures |r| <= |s| && r == s[|s| - |r|..]
    ensures forall k :: 0 <= k < |s| - |r| ==> IsJsSpace(s[k])
    ensures r == [] || !IsJsSpace(r[0])
  {
    if s != [] && IsJsSpace(s[0]) then TrimStart(s[1..]) else s
  }

  /** `s.trimEnd()`. */
  function TrimEnd(s: string): (r: string)
    ensures |r| <= |s| && r == s[..|r|]
    ensures forall k :: |r| <= k < |s| ==> IsJsSpace(s[k])
    ensures r == [] || !IsJsSpace(r[|r| - 1])
  {
    if s != [] && IsJsSpace(s[|s| - 1]) then TrimEnd(s[..|s| - 1]) else s
  }

  /** `s.trim()`. */
  function Trim(s: string): (r: string)
    ensures r == [] || (!IsJsSpace(r[0]) && !IsJsSpace(r[|r| - 1]))
  {
    TrimEnd(TrimStart(s))
  }

  /** The decimal digits of `n`, as template literals print a number. */
  function NatToString(n: nat): (r: string)
    ensures |r| >= 1
    ensures forall k :: 0 <= k < |r| ==> '0' <= r[k] <= '9'
  {
    var d := ['0' + (n % 10) as char];
    if n < 10 then d else NatToString(n / 10) + d
  }
}
