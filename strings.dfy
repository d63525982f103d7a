/** String operations of the JavaScript runtime that the layout code relies on,
    written out over `seq<char>`. */
module Strings {

  datatype Option<T> = None | Some(value: T) {
    /** `value ?? d` */
    function GetOr(d: T): T {
      if Some? then value else d
    }
  }

  /** A loop that builds `want` one element at a time: appending the next element to
      the first `i` gives the first `i + 1`. */
  lemma PrefixSnoc<T>(done: seq<T>, want: seq<T>, i: nat, x: T)
    requires i < |want| && done == want[..i] && x == want[i]
    ensures done + [x] == want[..i + 1]
  {
  }

  /** `s.startsWith(prefix)` */
  predicate StartsWith(s: string, prefix: string) {
    |prefix| <= |s| && s[..|prefix|] == prefix
  }

  /** `s.includes(sub)` */
  predicate Contains(s: string, sub: string) {
    StartsWith(s, sub) || (s != [] && Contains(s[1..], sub))
  }

  /** The characters JavaScript treats as white space or line terminators: the set
      that `String.prototype.trim` strips and that the regular expression `\s` matches. */
  predicate IsSpace(c: char) {
    var n := c as int;
    n == 0x09 || n == 0x0A || n == 0x0B || n == 0x0C || n == 0x0D || n == 0x20 ||
    n == 0xA0 || n == 0x1680 || (0x2000 <= n <= 0x200A) || n == 0x2028 || n == 0x2029 ||
    n == 0x202F || n == 0x205F || n == 0x3000 || n == 0xFEFF
  }

  predicate AllSpace(s: string) {
    forall k :: 0 <= k < |s| ==> IsSpace(s[k])
  }

  predicate NoSpace(s: string) {
    forall k :: 0 <= k < |s| ==> !IsSpace(s[k])
  }

  /** `s` without its leading white space. */
  function TrimStart(s: string): (r: string)
    ensures |r| <= |s| && r == s[|s| - |r|..]
    ensures AllSpace(s[..|s| - |r|])
    ensures r != "" ==> !IsSpace(r[0])
  {
    if s == [] || !IsSpace(s[0]) then s
    else
      var r := TrimStart(s[1..]);
      assert s[..|s| - |r|] == [s[0]] + s[1..][..|s| - 1 - |r|];
      r
  }

  /** `s.trim()`: `s` without its leading and trailing white space. */
  function Trim(s: string): (r: string)
    ensures |r| <= |s|
    ensures r == "" <==> AllSpace(s)
    ensures r != "" ==> !IsSpace(r[0]) && !IsSpace(r[|r| - 1])
    decreases |s|
  {
    if s == [] then s
    else if IsSpace(s[0]) then
      var r := Trim(s[1..]);
      assert AllSpace(s[1..]) ==> AllSpace(s) by {
        if AllSpace(s[1..]) {
          forall k | 0 < k < |s| ensures IsSpace(s[k]) { assert s[k] == s[1..][k - 1]; }
        }
      }
      r
    else if IsSpace(s[|s| - 1]) then
      var r := Trim(s[..|s| - 1]);
      assert s[..|s| - 1][0] == s[0];
      r
    else s
  }

  /** `r` sits in `s` at `i` with only white space around it. */
  ghost predicate CutAt(s: string, r: string, i: nat) {
    i + |r| <= |s| && r == s[i..i + |r|] && AllSpace(s[..i]) && AllSpace(s[i + |r|..])
  }

  /** Trimming cuts white space only: the result is a stretch of `s` with nothing
      but white space before and after it. */
  lemma {:induction false} TrimCutsOnlySpace(s: string)
    ensures exists i: nat :: CutAt(s, Trim(s), i)
    decreases |s|
  {
    var r := Trim(s);
    if s == [] {
      assert CutAt(s, r, 0);
    } else if IsSpace(s[0]) {
      TrimCutsOnlySpace(s[1..]);
      var i: nat :| CutAt(s[1..], r, i);
      CutAfterSpace(s, r, i);
    } else if IsSpace(s[|s| - 1]) {
      TrimCutsOnlySpace(s[..|s| - 1]);
      var i: nat :| CutAt(s[..|s| - 1], r, i);
      CutBeforeSpace(s, r, i);
    } else {
      assert CutAt(s, r, 0);
    }
  }

  lemma CutAfterSpace(s: string, r: string, i: nat)
    requires s != [] && IsSpace(s[0]) && CutAt(s[1..], r, i)
    ensures CutAt(s, r, i + 1)
  {
    var t := s[1..];
    assert s[i + 1..i + 1 + |r|] == t[i..i + |r|];
    assert s[i + 1 + |r|..] == t[i + |r|..];
    assert s[..i + 1] == [s[0]] + t[..i];
    SpaceConcat([s[0]], t[..i]);
  }

  lemma CutBeforeSpace(s: string, r: string, i: nat)
    requires s != [] && IsSpace(s[|s| - 1]) && CutAt(s[..|s| - 1], r, i)
    ensures CutAt(s, r, i)
  {
    var t := s[..|s| - 1];
    assert s[i..i + |r|] == t[i..i + |r|];
    assert s[..i] == t[..i];
    assert s[i + |r|..] == t[i + |r|..] + [s[|s| - 1]];
    SpaceConcat(t[i + |r|..], [s[|s| - 1]]);
  }

  lemma SpaceConcat(a: string, b: string)
    requires AllSpace(a) && AllSpace(b)
    ensures AllSpace(a + b)
  {
    forall k | 0 <= k < |a + b| ensures IsSpace((a + b)[k]) {
      if k >= |a| { assert (a + b)[k] == b[k - |a|]; }
    }
  }

  /** ASCII upper case letters to lower case; other characters unchanged. */
  function LowerChar(c: char): (d: char)
    ensures 'A' <= c <= 'Z' ==> d as int == c as int + 32
    ensures !('A' <= c <= 'Z') ==> d == c
  {
    if 'A' <= c <= 'Z' then (c as int + 32) as char else c
  }

  /** `s.toLowerCase()` restricted to ASCII letters. */
  function ToLower(s: string): (r: string)
    ensures |r| == |s|
    ensures forall k :: 0 <= k < |s| ==> r[k] == LowerChar(s[k])
  {
    if s == [] then [] else [LowerChar(s[0])] + ToLower(s[1..])
  }

  /** Index of the first character of `s` that satisfies `p`, or `|s|`. */
  function FirstWhere(s: string, p: char -> bool): (k: nat)
    ensures k <= |s|
    ensures k < |s| ==> p(s[k])
    ensures forall j :: 0 <= j < k ==> !p(s[j])
  {
    if s == [] || p(s[0]) then 0 else 1 + FirstWhere(s[1..], p)
  }

  /** `s.split(/\s+/)`: the pieces between maximal runs of white space. The first and
      the last piece are empty when `s` starts or ends with white space. */
  function SplitWs(s: string): (r: seq<string>)
    ensures |r| >= 1
    ensures forall k :: 0 <= k < |r| ==> NoSpace(r[k])
    ensures forall k :: 0 < k < |r| - 1 ==> r[k] != ""
    decreases |s|
  {
    var k := FirstWhere(s, IsSpace);
    if k == |s| then [s]
    else
      var after := TrimStart(s[k..]);
      assert |after| < |s[k..]| by { assert s[k..][0] == s[k]; }
      var rest := SplitWs(after);
      assert rest[0] != "" || |rest| == 1 by {
        if after != "" { assert !IsSpace(after[0]); }
      }
      [s[..k]] + rest
  }

  /** The word being read, as a list of words: none while it is empty. */
  function Pending(cur: string): seq<string> {
    if cur == "" then [] else [cur]
  }

  /** The words of `cur + s`, reading `s` character by character while `cur` holds the
      word read so far: white space ends the current word, any other character extends
      it. */
  function WordsFrom(s: string, cur: string): seq<string>
    decreases |s|
  {
    if s == [] then Pending(cur)
    else if IsSpace(s[0]) then Pending(cur) + WordsFrom(s[1..], "")
    else WordsFrom(s[1..], cur + [s[0]])
  }

  /** The words of `s`: its maximal runs of characters other than white space, in order. */
  function Words(s: string): seq<string> {
    WordsFrom(s, "")
  }

  /** `f` of every piece, piece after piece. */
  function ConcatMap(parts: seq<string>, f: string -> seq<string>): seq<string>
  {
    if parts == [] then [] else f(parts[0]) + ConcatMap(parts[1..], f)
  }

  /** The words of every piece, piece after piece. */
  function WordsOfAll(parts: seq<string>): seq<string>
  {
    ConcatMap(parts, Words)
  }

  /** Reading a stretch without white space only extends the current word. */
  lemma {:induction false} WordsFromWord(p: string, cur: string)
    requires NoSpace(p)
    ensures WordsFrom(p, cur) == Pending(cur + p)
    decreases |p|
  {
    if p == [] {
      assert cur + p == cur;
    } else {
      assert !IsSpace(p[0]);
      WordsFromWord(p[1..], cur + [p[0]]);
      assert cur + [p[0]] + p[1..] == cur + p;
    }
  }

  /** A string without white space is one word, or none when it is empty. */
  lemma WordsOfOneWord(s: string)
    requires NoSpace(s)
    ensures Words(s) == if s == "" then [] else [s]
  {
    WordsFromWord(s, "");
    assert "" + s == s;
  }

  /** A white-space character ends the current word and starts afresh. */
  lemma {:induction false} WordsFromSplitAt(a: string, c: char, b: string, cur: string)
    requires IsSpace(c)
    ensures WordsFrom(a + [c] + b, cur) == WordsFrom(a, cur) + Words(b)
    decreases |a|
  {
    var s := a + [c] + b;
    if a == [] {
      assert s[0] == c && s[1..] == b;
    } else {
      assert s[0] == a[0] && s[1..] == a[1..] + [c] + b;
      if IsSpace(a[0]) {
        WordsFromSplitAt(a[1..], c, b, "");
      } else {
        WordsFromSplitAt(a[1..], c, b, cur + [a[0]]);
      }
    }
  }

  /** A white-space character separates words: the words of `a`, the character and `b`
      are the words of `a` followed by the words of `b`. */
  lemma WordsSplitAt(a: string, c: char, b: string)
    requires IsSpace(c)
    ensures Words(a + [c] + b) == Words(a) + Words(b)
  {
    WordsFromSplitAt(a, c, b, "");
  }

  /** Leading white space carries no word. */
  lemma {:induction false} WordsSkipSpace(s: string, i: nat)
    requires i <= |s| && AllSpace(s[..i])
    ensures Words(s) == Words(s[i..])
    decreases i
  {
    if i > 0 {
      assert s[..i][0] == s[0];
      WordsAfterSpace(s);
      var t := s[1..][..i - 1];
      assert forall k :: 0 <= k < |t| ==> t[k] == s[..i][k + 1];
      WordsSkipSpace(s[1..], i - 1);
      assert s[1..][i - 1..] == s[i..];
    }
  }

  /** A white-space character at the start carries no word. */
  lemma WordsAfterSpace(s: string)
    requires s != [] && IsSpace(s[0])
    ensures Words(s) == Words(s[1..])
  {
    assert Pending("") == [];
  }

  /** The white-space run that `TrimStart` removes carries no word. */
  lemma WordsAfterSpaceRun(u: string)
    requires u != [] && IsSpace(u[0])
    ensures Words(TrimStart(u)) == Words(u[1..])
  {
    var after := TrimStart(u);
    var i := |u| - |after|;
    assert after == u[i..];
    WordsSkipSpace(u, i);
    WordsAfterSpace(u);
  }

  /** The words of one piece. */
  lemma WordsOfAllOne(x: string)
    ensures WordsOfAll([x]) == Words(x)
  {
    assert [x][1..] == [];
    assert ConcatMap([], Words) == [];
  }

  /** The words of a concatenation of piece lists. */
  lemma WordsOfAllConcat(a: seq<string>, b: seq<string>)
    ensures WordsOfAll(a + b) == WordsOfAll(a) + WordsOfAll(b)
  {
    ConcatMapConcat(a, b, Words);
  }

  lemma {:induction false} ConcatMapConcat(a: seq<string>, b: seq<string>,
                                           f: string -> seq<string>)
    ensures ConcatMap(a + b, f) == ConcatMap(a, f) + ConcatMap(b, f)
    decreases |a|
  {
    if a != [] {
      assert (a + b)[0] == a[0] && (a + b)[1..] == a[1..] + b;
      ConcatMapConcat(a[1..], b, f);
    } else {
      assert a + b == b;
    }
  }

  /** The pieces joined with `sep` between consecutive pieces (`Array.prototype.join`). */
  function Join(parts: seq<string>, sep: string): string
  {
    if parts == [] then ""
    else if |parts| == 1 then parts[0]
    else parts[0] + sep + Join(parts[1..], sep)
  }

  /** `s.split(sep)` for a one-character separator. */
  function Split(s: string, sep: char): (r: seq<string>)
    ensures |r| >= 1
    ensures forall k, m :: 0 <= k < |r| && 0 <= m < |r[k]| ==> r[k][m] != sep
    ensures Join(r, [sep]) == s
    decreases |s|
  {
    var k := FirstWhere(s, c => c == sep);
    if k == |s| then [s]
    else
      var rest := Split(s[k + 1..], sep);
      assert s == s[..k] + [sep] + s[k + 1..];
      [s[..k]] + rest
  }

  lemma {:induction false} JoinSnoc(parts: seq<string>, w: string, sep: string)
    requires parts != []
    ensures Join(parts + [w], sep) == Join(parts, sep) + sep + w
    decreases |parts|
  {
    if |parts| == 1 {
      assert parts + [w] == [parts[0], w];
      assert [parts[0], w][1..] == [w];
    } else {
      JoinSnoc(parts[1..], w, sep);
      assert (parts + [w])[1..] == parts[1..] + [w];
    }
  }
  /** Joining pieces with a white-space character keeps their words: the words of the
      joined string are the words of the pieces, piece after piece. */
  lemma {:induction false} JoinKeepsWords(parts: seq<string>, c: char)
    requires IsSpace(c)
    ensures Words(Join(parts, [c])) == WordsOfAll(parts)
    decreases |parts|
  {
    if |parts| == 1 {
      assert parts == [parts[0]];
      WordsOfAllOne(parts[0]);
    } else if |parts| > 1 {
      JoinKeepsWords(parts[1..], c);
      WordsSplitAt(parts[0], c, Join(parts[1..], [c]));
    }
  }

  /** The pieces of `s.split(/\s+/)` carry exactly the words of `s`, in order. */
  lemma {:induction false} SplitWsKeepsWords(s: string)
    ensures WordsOfAll(SplitWs(s)) == Words(s)
    decreases |s|
  {
    var k := FirstWhere(s, IsSpace);
    if k == |s| {
      WordsOfOneWord(s);
      assert SplitWs(s) == [s];
      WordsOfAllOne(s);
    } else {
      var after := TrimStart(s[k..]);
      assert |after| < |s[k..]| by { assert s[k..][0] == s[k]; }
      SplitWsKeepsWords(after);
      WordsAtFirstSpace(s, k);
      var r := SplitWs(after);
      assert SplitWs(s) == [s[..k]] + r;
      assert ([s[..k]] + r)[0] == s[..k] && ([s[..k]] + r)[1..] == r;
    }
  }

  /** The first piece of `s` ends at its first white space `k`; the words of `s` are
      that piece's, then those after the white-space run. */
  lemma WordsAtFirstSpace(s: string, k: nat)
    requires k < |s| && IsSpace(s[k]) && NoSpace(s[..k])
    ensures Words(s) == Words(s[..k]) + Words(TrimStart(s[k..]))
  {
    assert s == s[..k] + [s[k]] + s[k + 1..];
    WordsSplitAt(s[..k], s[k], s[k + 1..]);
    WordsAfterSpaceRun(s[k..]);
    assert s[k..][1..] == s[k + 1..];
  }

  /** `s.split(/\s+/)` begins with an empty piece exactly when `s` is empty or starts with
      white space, and ends with one exactly when `s` is empty or ends with white space. */
  lemma SplitWsEnds(s: string)
    ensures SplitWs(s)[0] == "" <==> s == "" || IsSpace(s[0])
    ensures SplitWs(s)[|SplitWs(s)| - 1] == "" <==> s == "" || IsSpace(s[|s| - 1])
  {
    SplitWsFirst(s);
    SplitWsLast(s);
  }

  lemma SplitWsFirst(s: string)
    ensures SplitWs(s)[0] == s[..FirstWhere(s, IsSpace)]
  {
  }

  lemma {:induction false} SplitWsLast(s: string)
    ensures SplitWs(s)[|SplitWs(s)| - 1] == "" <==> s == "" || IsSpace(s[|s| - 1])
    decreases |s|
  {
    var k := FirstWhere(s, IsSpace);
    if k == |s| {
      assert SplitWs(s) == [s];
      if s != "" {
        assert !IsSpace(s[|s| - 1]);
      }
    } else {
      var u := s[k..];
      var after := TrimStart(u);
      assert |after| < |u| by { assert u[0] == s[k]; }
      SplitWsLast(after);
      var r := SplitWs(after);
      SplitWsUnfolds(s, k);
      LastOfConcat([s[..k]], r);
      TrimStartLast(u);
      LastOfDrop(s, k);
      if after == "" {
        assert r[|r| - 1] == "" && IsSpace(s[|s| - 1]);
      } else {
        assert after[|after| - 1] == s[|s| - 1];
      }
    }
  }

  lemma SplitWsUnfolds(s: string, k: nat)
    requires k == FirstWhere(s, IsSpace) && k < |s|
    ensures SplitWs(s) == [s[..k]] + SplitWs(TrimStart(s[k..]))
  {
  }

  /** The words of all pieces but the last, then those of the last piece. */
  lemma WordsOfAllSnoc(parts: seq<string>)
    requires parts != []
    ensures WordsOfAll(parts) == WordsOfAll(parts[..|parts| - 1]) + Words(parts[|parts| - 1])
  {
    ConcatMapSnoc(parts, Words);
  }

  lemma {:induction false} ConcatMapSnoc(parts: seq<string>, f: string -> seq<string>)
    requires parts != []
    ensures ConcatMap(parts, f) == ConcatMap(parts[..|parts| - 1], f) + f(parts[|parts| - 1])
    decreases |parts|
  {
    var n := |parts|;
    if n == 1 {
      assert parts[..0] == [];
      assert parts[1..] == [];
    } else {
      var tail := parts[1..];
      ConcatMapSnoc(tail, f);
      var init := parts[..n - 1];
      assert init[0] == parts[0];
      assert init[1..] == tail[..n - 2];
      assert tail[n - 2] == parts[n - 1];
    }
  }

  lemma LastOfDrop<T>(s: seq<T>, k: nat)
    requires k < |s|
    ensures s[k..][|s[k..]| - 1] == s[|s| - 1]
  {
  }

  lemma LastOfConcat<T>(a: seq<T>, b: seq<T>)
    requires b != []
    ensures (a + b)[|a + b| - 1] == b[|b| - 1]
  {
  }

  /** What `TrimStart` leaves of the end of a non-empty string. */
  lemma TrimStartLast(u: string)
    requires u != []
    ensures TrimStart(u) == "" ==> IsSpace(u[|u| - 1])
    ensures TrimStart(u) != "" ==> TrimStart(u)[|TrimStart(u)| - 1] == u[|u| - 1]
  {
    var r := TrimStart(u);
    if r == "" {
      assert u[..|u|][|u| - 1] == u[|u| - 1];
    } else {
      assert r == u[|u| - |r|..];
    }
  }
}
