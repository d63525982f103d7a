/** The text inside a zone: greedy word wrapping, shrinking the font until the block
    fits, and placing the lines in the entry's rectangle. The canvas's text measurement
    is the parameter `measure(size, s)`: the width of `s` in the bold face at `size` px. */
module TextLayout {
  import opened Strings
  import opened Model
  import opened Geometry

  /** `Math.max(0, Math.min(1, v))`. */
  function Clamp01(v: real): (r: real)
    ensures 0.0 <= r <= 1.0
    ensures 0.0 <= v <= 1.0 ==> r == v
    ensures v < 0.0 ==> r == 0.0
    ensures v > 1.0 ==> r == 1.0
  {
    if v < 0.0 then 0.0 else if v > 1.0 then 1.0 else v
  }

  // ---------------------------------------------------------------- wrapping

  /** The greedy loop over the words of one paragraph: `cur` is the line being built.
      A word is appended to `cur` while the result still measures at most `maxW`;
      otherwise `cur` is emitted (when not empty) and the word starts the next line. */
  function WrapLine(words: seq<string>, cur: string, measure: (real, string) -> real,
                    size: real, maxW: real): seq<string>
    decreases |words|
  {
    if words == [] then (if cur != "" then [cur] else [])
    else
      var w := words[0];
      var test := if cur != "" then cur + " " + w else w;
      if measure(size, test) <= maxW then WrapLine(words[1..], test, measure, size, maxW)
      else (if cur != "" then [cur] else []) + WrapLine(words[1..], w, measure, size, maxW)
  }

  /** The lines of one paragraph are never empty, and each is the line started before
      the call, one of the words, or a piece that measures at most `maxW`. */
  lemma {:induction false} WrapLineLines(words: seq<string>, cur: string,
                                         measure: (real, string) -> real, size: real, maxW: real)
    ensures cur != "" ==> WrapLine(words, cur, measure, size, maxW) != []
    ensures forall line :: line in WrapLine(words, cur, measure, size, maxW) ==>
              line != "" && (line == cur || line in words || measure(size, line) <= maxW)
    decreases |words|
  {
    if words != [] {
      var w := words[0];
      var test := if cur != "" then cur + " " + w else w;
      var rest := words[1..];
      assert forall v :: v in rest ==> v in words;
      if measure(size, test) <= maxW {
        WrapLineLines(rest, test, measure, size, maxW);
      } else {
        WrapLineLines(rest, w, measure, size, maxW);
        var tail := WrapLine(rest, w, measure, size, maxW);
        var head := if cur != "" then [cur] else [];
        var lines := head + tail;
        assert WrapLine(words, cur, measure, size, maxW) == lines;
        assert w in words by { assert words[0] == w; }
        forall line | line in lines
          ensures line != "" && (line == cur || line in words || measure(size, line) <= maxW)
        {
          if line !in head {
            assert line in tail;
          }
        }
      }
    }
  }

  /** One paragraph (a piece of the text between line breaks): an empty paragraph is an
      empty line, any other is wrapped word by word. */
  function WrapParagraph(para: string, measure: (real, string) -> real, size: real,
                         maxW: real): seq<string>
  {
    if para == "" then [""] else WrapLine(SplitWs(para), "", measure, size, maxW)
  }

  function WrapParagraphs(paras: seq<string>, measure: (real, string) -> real, size: real,
                          maxW: real): seq<string>
  {
    if paras == [] then []
    else WrapParagraphs(paras[..|paras| - 1], measure, size, maxW)
         + WrapParagraph(paras[|paras| - 1], measure, size, maxW)
  }

  /** What `wrapText` returns for `text` at font size `size`. */
  function Wrap(text: string, measure: (real, string) -> real, size: real, maxW: real)
    : seq<string>
  {
    WrapParagraphs(Split(text, '\n'), measure, size, maxW)
  }

  /** The inner loop of `wrapText`, over the words of one paragraph. */
  method WrapWords(words: seq<string>, measure: (real, string) -> real, size: real, maxW: real)
    returns (lines: seq<string>)
    ensures lines == WrapLine(words, "", measure, size, maxW)
  {
    lines := [];
    var cur := "";
    for j := 0 to |words|
      invariant lines + WrapLine(words[j..], cur, measure, size, maxW)
                == WrapLine(words, "", measure, size, maxW)
    {
      var w := words[j];
      var test := if cur != "" then cur + " " + w else w;
      ghost var (lines0, cur0) := (lines, cur);
      if measure(size, test) <= maxW {
        cur := test;
      } else {
        if cur != "" {
          lines := lines + [cur];
        }
        cur := w;
      }
      WrapWordsStep(words, j, lines0, cur0, lines, cur, measure, size, maxW);
    }
    if cur != "" {
      lines := lines + [cur];
    }
  }

  /** One word of the greedy loop: appended to `cur` when the result fits, otherwise
      starting the next line after `cur` is emitted. */
  lemma WrapLineStep(words: seq<string>, cur: string, measure: (real, string) -> real,
                     size: real, maxW: real)
    requires words != []
    ensures var test := if cur != "" then cur + " " + words[0] else words[0];
      WrapLine(words, cur, measure, size, maxW) ==
        if measure(size, test) <= maxW then WrapLine(words[1..], test, measure, size, maxW)
        else (if cur != "" then [cur] else []) + WrapLine(words[1..], words[0], measure, size, maxW)
  {
  }

  /** One turn of the loop of `WrapWords` keeps its invariant. */
  lemma WrapWordsStep(words: seq<string>, j: nat, lines: seq<string>, cur: string,
                      lines': seq<string>, cur': string,
                      measure: (real, string) -> real, size: real, maxW: real)
    requires j < |words|
    requires var test := if cur != "" then cur + " " + words[j] else words[j];
      if measure(size, test) <= maxW then lines' == lines && cur' == test
      else lines' == lines + (if cur != "" then [cur] else []) && cur' == words[j]
    ensures lines' + WrapLine(words[j + 1..], cur', measure, size, maxW)
            == lines + WrapLine(words[j..], cur, measure, size, maxW)
  {
    assert words[j..][0] == words[j] && words[j..][1..] == words[j + 1..];
    WrapLineStep(words[j..], cur, measure, size, maxW);
  }

  /** `wrapText(ctx, text, maxW)` with the font set to `size`. */
  method WrapText(text: string, measure: (real, string) -> real, size: real, maxW: real)
    returns (lines: seq<string>)
    ensures lines == Wrap(text, measure, size, maxW)
  {
    var paras := Split(text, '\n');
    lines := [];
    for p := 0 to |paras|
      invariant lines == WrapParagraphs(paras[..p], measure, size, maxW)
    {
      assert paras[..p + 1][..p] == paras[..p];
      var para := paras[p];
      if para == "" {
        lines := lines + [""];
      } else {
        var ws := WrapWords(SplitWs(para), measure, size, maxW);
        lines := lines + ws;
      }
    }
    assert paras[..|paras|] == paras;
  }

  /** Every line the wrapper emits is an empty paragraph, fits in `maxW`, or is a single
      word (a piece without white space) too wide to fit on any line. */
  lemma {:induction false} WrappedLinesFit(paras: seq<string>, measure: (real, string) -> real,
                                           size: real, maxW: real)
    ensures forall line :: line in WrapParagraphs(paras, measure, size, maxW) ==>
              line == "" || measure(size, line) <= maxW || NoSpace(line)
    decreases |paras|
  {
    if paras != [] {
      WrappedLinesFit(paras[..|paras| - 1], measure, size, maxW);
      var para := paras[|paras| - 1];
      if para != "" {
        var words := SplitWs(para);
        var ls := WrapLine(words, "", measure, size, maxW);
        WrapLineLines(words, "", measure, size, maxW);
        assert forall line :: line in ls ==> line in words || measure(size, line) <= maxW;
      }
    }
  }

  lemma JoinCons(x: string, parts: seq<string>, sep: string)
    requires parts != []
    ensures Join([x] + parts, sep) == x + sep + Join(parts, sep)
  {
    assert ([x] + parts)[1..] == parts;
  }

  /** Wrapping only chooses where to break: when no word is empty, the lines joined by
      single spaces give back the words joined by single spaces. */
  lemma {:induction false} WrapLineKeepsWords(words: seq<string>, cur: string,
                                              measure: (real, string) -> real, size: real,
                                              maxW: real)
    requires forall k :: 0 <= k < |words| ==> words[k] != ""
    ensures Join(WrapLine(words, cur, measure, size, maxW), " ")
            == Join((if cur != "" then [cur] else []) + words, " ")
    decreases |words|
  {
    if words != [] {
      var w := words[0];
      var rest := words[1..];
      var test := if cur != "" then cur + " " + w else w;
      assert forall k :: 0 <= k < |rest| ==> rest[k] == words[k + 1];
      if measure(size, test) <= maxW {
        WrapLineKeepsWords(rest, test, measure, size, maxW);
        KeepsWordsAfterFit(words, cur, measure, size, maxW);
      } else {
        WrapLineKeepsWords(rest, w, measure, size, maxW);
        WrapLineLines(rest, w, measure, size, maxW);
        KeepsWordsAfterBreak(words, cur, measure, size, maxW);
      }
    }
  }

  /** The step of `WrapLineKeepsWords` where the word joins the current line. */
  lemma KeepsWordsAfterFit(words: seq<string>, cur: string, measure: (real, string) -> real,
                           size: real, maxW: real)
    requires words != [] && words[0] != ""
    requires var test := if cur != "" then cur + " " + words[0] else words[0];
      && measure(size, test) <= maxW
      && Join(WrapLine(words[1..], test, measure, size, maxW), " ") == Join([test] + words[1..], " ")
    ensures Join(WrapLine(words, cur, measure, size, maxW), " ")
            == Join((if cur != "" then [cur] else []) + words, " ")
  {
    WrapLineStep(words, cur, measure, size, maxW);
    var w := words[0];
    var rest := words[1..];
    assert words == [w] + rest;
    if cur != "" {
      JoinMerge(cur, w, rest, " ");
      assert [cur] + words == [cur, w] + rest;
    } else {
      assert [] + words == [w] + rest;
    }
  }

  /** The step of `WrapLineKeepsWords` where the word starts a new line. */
  lemma KeepsWordsAfterBreak(words: seq<string>, cur: string, measure: (real, string) -> real,
                             size: real, maxW: real)
    requires words != [] && words[0] != ""
    requires var test := if cur != "" then cur + " " + words[0] else words[0];
      && measure(size, test) > maxW
      && WrapLine(words[1..], words[0], measure, size, maxW) != []
      && Join(WrapLine(words[1..], words[0], measure, size, maxW), " ") == Join([words[0]] + words[1..], " ")
    ensures Join(WrapLine(words, cur, measure, size, maxW), " ")
            == Join((if cur != "" then [cur] else []) + words, " ")
  {
    WrapLineStep(words, cur, measure, size, maxW);
    var tail := WrapLine(words[1..], words[0], measure, size, maxW);
    assert words == [words[0]] + words[1..];
    if cur != "" {
      JoinSameTail(cur, tail, words, " ");
    } else {
      assert [] + tail == tail && [] + words == words;
    }
  }

  /** Gluing two pieces with the separator and joining gives the same as joining them
      apart. */
  lemma JoinMerge(a: string, b: string, rest: seq<string>, sep: string)
    ensures Join([a + sep + b] + rest, sep) == Join([a, b] + rest, sep)
  {
    if rest == [] {
      assert [a + sep + b] + rest == [a + sep + b];
      assert [a, b] + rest == [a, b];
      assert [a, b][1..] == [b];
    } else {
      JoinCons(a + sep + b, rest, sep);
      JoinCons(b, rest, sep);
      assert [a, b] + rest == [a] + ([b] + rest);
      JoinCons(a, [b] + rest, sep);
    }
  }

  lemma JoinSameTail(x: string, p: seq<string>, q: seq<string>, sep: string)
    requires p != [] && q != [] && Join(p, sep) == Join(q, sep)
    ensures Join([x] + p, sep) == Join([x] + q, sep)
  {
    JoinCons(x, p, sep);
    JoinCons(x, q, sep);
  }

  /** The line being built, emitted or not, holds the words of `cur`. */
  lemma WordsOfPending(cur: string)
    ensures WordsOfAll(if cur != "" then [cur] else []) == Words(cur)
  {
    if cur != "" {
      WordsOfAllOne(cur);
    }
  }

  /** Wrapping only chooses where to break: the words of the emitted lines, line after
      line, are the words of `cur` followed by the words of every piece, whatever the
      pieces are (empty ones included). */
  lemma {:induction false} WrapLineWords(words: seq<string>, cur: string,
                                         measure: (real, string) -> real, size: real,
                                         maxW: real)
    ensures WordsOfAll(WrapLine(words, cur, measure, size, maxW))
            == Words(cur) + WordsOfAll(words)
    decreases |words|
  {
    WordsOfPending(cur);
    if words != [] {
      var w := words[0];
      var rest := words[1..];
      var test := if cur != "" then cur + " " + w else w;
      assert WordsOfAll(words) == Words(w) + WordsOfAll(rest);
      WordsOfTest(cur, w);
      if measure(size, test) <= maxW {
        WrapLineWords(rest, test, measure, size, maxW);
      } else {
        WrapLineWords(rest, w, measure, size, maxW);
        WordsOfAllConcat(if cur != "" then [cur] else [], WrapLine(rest, w, measure, size, maxW));
      }
    }
  }

  /** The candidate line `cur + " " + w` holds the words of `cur`, then those of `w`. */
  lemma WordsOfTest(cur: string, w: string)
    ensures Words(if cur != "" then cur + " " + w else w) == Words(cur) + Words(w)
  {
    if cur != "" {
      assert cur + " " + w == cur + [' '] + w;
      WordsSplitAt(cur, ' ', w);
    } else {
      assert Words(cur) == [];
    }
  }

  /** The lines of one paragraph hold the paragraph's words, in order. */
  lemma WrapParagraphWords(para: string, measure: (real, string) -> real, size: real,
                           maxW: real)
    ensures WordsOfAll(WrapParagraph(para, measure, size, maxW)) == Words(para)
  {
    if para == "" {
      WordsOfAllOne("");
      assert Words("") == [];
    } else {
      WrapLineWords(SplitWs(para), "", measure, size, maxW);
      SplitWsKeepsWords(para);
      assert Words("") == [];
    }
  }

  lemma {:induction false} WrapParagraphsWords(paras: seq<string>,
                                               measure: (real, string) -> real, size: real,
                                               maxW: real)
    ensures WordsOfAll(WrapParagraphs(paras, measure, size, maxW)) == WordsOfAll(paras)
    decreases |paras|
  {
    if paras != [] {
      var init := paras[..|paras| - 1];
      var last := paras[|paras| - 1];
      WrapParagraphsWords(init, measure, size, maxW);
      WrapParagraphsWordsStep(paras, measure, size, maxW);
    }
  }

  /** The step of `WrapParagraphsWords` for the last paragraph. */
  lemma WrapParagraphsWordsStep(paras: seq<string>, measure: (real, string) -> real,
                                size: real, maxW: real)
    requires paras != []
    requires var init := paras[..|paras| - 1];
      WordsOfAll(WrapParagraphs(init, measure, size, maxW)) == WordsOfAll(init)
    ensures WordsOfAll(WrapParagraphs(paras, measure, size, maxW)) == WordsOfAll(paras)
  {
    var init := paras[..|paras| - 1];
    var last := paras[|paras| - 1];
    var a := WrapParagraphs(init, measure, size, maxW);
    var b := WrapParagraph(last, measure, size, maxW);
    assert WrapParagraphs(paras, measure, size, maxW) == a + b;
    WrapParagraphWords(last, measure, size, maxW);
    WordsOfAllConcat(a, b);
    WordsOfAllSnoc(paras);
  }

  /** `wrapText` loses no word and adds none: the words of its lines, line after line,
      are the words of the text (its maximal runs of characters other than white space),
      in order. */
  lemma WrapKeepsWords(text: string, measure: (real, string) -> real, size: real, maxW: real)
    ensures WordsOfAll(Wrap(text, measure, size, maxW)) == Words(text)
  {
    var paras := Split(text, '\n');
    WrapParagraphsWords(paras, measure, size, maxW);
    JoinKeepsWords(paras, '\n');
  }

  // ---------------------------------------------------------------- fitting

  /** The result of `layoutAtSize`: lines, line heights and the block's extent. */
  datatype Fitted = Fitted(lines: seq<string>, lineH: real, emptyLineH: real,
                           totalH: real, maxLine: real)

  function FilledCount(lines: seq<string>): (n: nat)
    ensures n <= |lines|
  {
    if lines == [] then 0
    else FilledCount(lines[..|lines| - 1]) + (if lines[|lines| - 1] == "" then 0 else 1)
  }

  /** The block height: `lh` per non-empty line and `elh` per empty one. */
  function TotalHeight(lines: seq<string>, lh: real, elh: real): (th: real)
    ensures lh >= 0.0 && elh >= 0.0 ==> th >= 0.0
  {
    if lines == [] then 0.0
    else TotalHeight(lines[..|lines| - 1], lh, elh) + (if lines[|lines| - 1] == "" then elh else lh)
  }

  /** The widest non-empty line (0 when there is none). */
  function MaxLine(lines: seq<string>, measure: (real, string) -> real, size: real): real
  {
    if lines == [] then 0.0
    else
      var before := MaxLine(lines[..|lines| - 1], measure, size);
      var last := lines[|lines| - 1];
      if last == "" then before
      else if measure(size, last) > before then measure(size, last) else before
  }

  /** `maxLine` is at least 0, no non-empty line is wider, and unless it is 0 it is the
      width of one of them. */
  lemma {:induction false} MaxLineBounds(lines: seq<string>, measure: (real, string) -> real,
                                         size: real)
    ensures MaxLine(lines, measure, size) >= 0.0
    ensures forall k :: 0 <= k < |lines| && lines[k] != "" ==>
              measure(size, lines[k]) <= MaxLine(lines, measure, size)
    ensures MaxLine(lines, measure, size) == 0.0
            || exists k :: 0 <= k < |lines| && lines[k] != ""
                           && MaxLine(lines, measure, size) == measure(size, lines[k])
    decreases |lines|
  {
    if lines != [] {
      var init := lines[..|lines| - 1];
      MaxLineBounds(init, measure, size);
      assert forall k :: 0 <= k < |init| ==> lines[k] == init[k];
    }
  }

  function Layout(content: string, size: real, measure: (real, string) -> real, maxW: real)
    : (f: Fitted)
  {
    var ls := Wrap(content, measure, size, maxW);
    Fitted(ls, size * 1.08, size * 0.55, TotalHeight(ls, size * 1.08, size * 0.55),
           MaxLine(ls, measure, size))
  }

  lemma LayoutShape(content: string, size: real, measure: (real, string) -> real, maxW: real,
                    f: Fitted)
    requires f == Layout(content, size, measure, maxW)
    ensures f.lineH == size * 1.08 && f.emptyLineH == size * 0.55
    ensures f.totalH == TotalHeight(f.lines, f.lineH, f.emptyLineH)
    ensures f.maxLine == MaxLine(f.lines, measure, size)
  {
  }

  /** The test of the shrinking loop: the block is no taller than `maxH` and no line
      wider than `maxW`. */
  predicate Fits(f: Fitted, maxW: real, maxH: real) {
    !(f.totalH > maxH || f.maxLine > maxW)
  }

  /** The `forEach` over the lines in `layoutAtSize`: block height and widest line. */
  method MeasureLines(ls: seq<string>, measure: (real, string) -> real, size: real,
                      lh: real, elh: real)
    returns (th: real, maxLine: real)
    ensures th == TotalHeight(ls, lh, elh)
    ensures maxLine == MaxLine(ls, measure, size)
  {
    th := 0.0;
    maxLine := 0.0;
    for i := 0 to |ls|
      invariant th == TotalHeight(ls[..i], lh, elh)
      invariant maxLine == MaxLine(ls[..i], measure, size)
    {
      assert ls[..i + 1][..i] == ls[..i];
      if ls[i] == "" {
        th := th + elh;
      } else {
        var width := measure(size, ls[i]);
        maxLine := if width > maxLine then width else maxLine;
        th := th + lh;
      }
    }
    assert ls[..|ls|] == ls;
  }

  /** `layoutAtSize(size)`. */
  method LayoutAtSize(content: string, size: real, measure: (real, string) -> real, maxW: real)
    returns (f: Fitted)
    ensures f == Layout(content, size, measure, maxW)
  {
    var ls := WrapText(content, measure, size, maxW);
    var th, maxLine := MeasureLines(ls, measure, size, size * 1.08, size * 0.55);
    f := Fitted(ls, size * 1.08, size * 0.55, th, maxLine);
  }

  /** One step of the loop: 6% smaller, never below 10 px. */
  function Shrink(size: real): (s: real)
    ensures s >= 10.0
  {
    if size * 0.94 > 10.0 then size * 0.94 else 10.0
  }

  /** A bound on the steps left before the size reaches 10 px. */
  function StepsLeft(size: real): nat {
    if size > 10.0 then ((size - 10.0) / 0.6).Floor + 1 else 0
  }

  lemma ShrinkProgresses(size: real)
    requires size > 10.0
    ensures StepsLeft(Shrink(size)) < StepsLeft(size)
  {
    var s := Shrink(size);
    if s > 10.0 {
      var a := (s - 10.0) / 0.6;
      var b := (size - 10.0) / 0.6;
      assert a <= b - 1.0;
      assert a.Floor as real <= a;
      assert (b - 1.0).Floor == b.Floor - 1;
    }
  }

  /** The size the shrinking loop settles on, starting from `size`. */
  function FitSize(content: string, size: real, measure: (real, string) -> real,
                   maxW: real, maxH: real): (r: real)
    ensures size >= 10.0 ==> 10.0 <= r <= size
    ensures r > 10.0 ==> Fits(Layout(content, r, measure, maxW), maxW, maxH)
    ensures size > 10.0 && Fits(Layout(content, size, measure, maxW), maxW, maxH) ==> r == size
    decreases StepsLeft(size)
  {
    if size > 10.0 && !Fits(Layout(content, size, measure, maxW), maxW, maxH) then
      ShrinkProgresses(size);
      FitSize(content, Shrink(size), measure, maxW, maxH)
    else size
  }

  /** The loop `while (fontSize > 10 && !fits) fontSize = max(10, fontSize * 0.94)`. */
  method FitText(content: string, start: real, measure: (real, string) -> real,
                 maxW: real, maxH: real)
    returns (size: real, fitted: Fitted)
    ensures size == FitSize(content, start, measure, maxW, maxH)
    ensures fitted == Layout(content, size, measure, maxW)
  {
    size := start;
    fitted := LayoutAtSize(content, size, measure, maxW);
    while size > 10.0 && !Fits(fitted, maxW, maxH)
      invariant fitted == Layout(content, size, measure, maxW)
      invariant FitSize(content, size, measure, maxW, maxH)
                == FitSize(content, start, measure, maxW, maxH)
      decreases StepsLeft(size)
    {
      ShrinkProgresses(size);
      size := Shrink(size);
      fitted := LayoutAtSize(content, size, measure, maxW);
    }
  }

  // ---------------------------------------------------------------- placing

  /** The horizontal padding: 5% of the width, but at least 16. */
  function PadX(w: real): (p: real)
    ensures 16.0 <= p && w * 0.05 <= p
    ensures p == 16.0 || p == w * 0.05
  {
    if 16.0 > w * 0.05 then 16.0 else w * 0.05
  }

  /** The vertical padding: 8% of the height, but at least 16. */
  function PadY(h: real): (p: real)
    ensures 16.0 <= p && h * 0.08 <= p
    ensures p == 16.0 || p == h * 0.08
  {
    if 16.0 > h * 0.08 then 16.0 else h * 0.08
  }

  /** The width and the height left for the text inside the padding. */
  function InnerW(w: real): real { w - PadX(w) * 2.0 }
  function InnerH(h: real): real { h - PadY(h) * 2.0 }

  /** ``textCfg.align || 'center'``. */
  function AlignOf(t: TextSpec): string { if t.align == "" then "center" else t.align }
  function VAlignOf(t: TextSpec): string { if t.valign == "" then "middle" else t.valign }

  function FlipAlign(align: string): string {
    if align == "left" then "right" else if align == "right" then "left" else align
  }

  /** The x the lines are drawn at, in the context's coordinates: under a mirrored
      context (`scale(-1, 1)`) the coordinate is negated. */
  function AnchorX(x: real, w: real, padX: real, align: string, mirrored: bool): real {
    if mirrored then
      (if align == "left" then -(x + w - padX)
       else if align == "right" then -(x + padX)
       else -(x + w / 2.0))
    else
      (if align == "left" then x + padX
       else if align == "right" then x + w - padX
       else x + w / 2.0)
  }

  /** Under a mirrored context, text drawn with `align` lands where unmirrored text with
      the opposite alignment would: the anchor is the reflection of that one. */
  lemma MirroredAnchorReflects(x: real, w: real, padX: real, align: string)
    ensures AnchorX(x, w, padX, align, true) == -AnchorX(x, w, padX, FlipAlign(align), false)
    ensures FlipAlign(FlipAlign(align)) == align
  {
  }

  /** The y of the first line. */
  function BlockTop(y: real, h: real, padY: real, valign: string, totalH: real): real {
    if valign == "top" then y + padY
    else if valign == "bottom" then y + h - padY - totalH
    else y + (h - totalH) / 2.0
  }

  /** Top alignment puts the block on the top padding, bottom alignment puts its bottom
      edge on the bottom padding, and anything else centres it. */
  lemma BlockTopAligns(y: real, h: real, padY: real, valign: string, totalH: real)
    ensures valign == "top" ==> BlockTop(y, h, padY, valign, totalH) == y + padY
    ensures valign == "bottom" ==> BlockTop(y, h, padY, valign, totalH) + totalH == y + h - padY
    ensures valign != "top" && valign != "bottom" ==>
              BlockTop(y, h, padY, valign, totalH) + totalH / 2.0 == y + h / 2.0
  {
  }

  /** The `fillText` calls of the drawing loop: each non-empty line at the height of the
      lines above it. */
  function Placements(lines: seq<string>, top: real, lh: real, elh: real)
    : (r: seq<(string, real)>)
    ensures |r| == FilledCount(lines)
  {
    if lines == [] then []
    else
      var init := lines[..|lines| - 1];
      var last := lines[|lines| - 1];
      Placements(init, top, lh, elh)
      + (if last == "" then [] else [(last, top + TotalHeight(init, lh, elh))])
  }

  /** Every drawn line is a non-empty one and lies inside the block: at or below its top,
      and a line height above its bottom. */
  lemma {:induction false} PlacementsWithinBlock(lines: seq<string>, top: real, lh: real, elh: real)
    requires lh >= 0.0 && elh >= 0.0
    ensures forall k :: 0 <= k < |Placements(lines, top, lh, elh)| ==>
              var p := Placements(lines, top, lh, elh)[k];
              p.0 != "" && top <= p.1 && p.1 + lh <= top + TotalHeight(lines, lh, elh)
    decreases |lines|
  {
    if lines != [] {
      var init := lines[..|lines| - 1];
      PlacementsWithinBlock(init, top, lh, elh);
      var before := Placements(init, top, lh, elh);
      var thInit := TotalHeight(init, lh, elh);
      assert forall k :: 0 <= k < |before| ==> before[k].0 != "";
      assert forall k :: 0 <= k < |before| ==> top <= before[k].1;
      assert forall k :: 0 <= k < |before| ==> before[k].1 + lh <= top + thInit;
      var th := TotalHeight(lines, lh, elh);
      assert TotalHeight(init, lh, elh) + (if lines[|lines| - 1] == "" then elh else lh) == th;
      assert thInit >= 0.0 && thInit <= th;
      var r := Placements(lines, top, lh, elh);
      assert r == before + (if lines[|lines| - 1] == "" then [] else [(lines[|lines| - 1], top + thInit)]);
      forall k | 0 <= k < |r|
        ensures r[k].0 != "" && top <= r[k].1 && r[k].1 + lh <= top + th
      {
        if k < |before| {
          assert r[k] == before[k];
        }
      }
    }
  }

  /** What `drawTextInRect` draws. */
  datatype Drawn = Drawn(fontSize: real, align: string, x: real, top: real,
                         fitted: Fitted, placed: seq<(string, real)>)

  function RequestedSize(w: real, h: real, t: TextSpec): real {
    if t.fontSize > 0.0 then t.fontSize
    else
      var m := if w * 0.12 < h * 0.55 then w * 0.12 else h * 0.55;
      if m < 110.0 then m else 110.0
  }

  function StartSize(w: real, h: real, t: TextSpec): (s: real)
    ensures s >= 10.0
  {
    var r := RequestedSize(w, h, t);
    if r > 10.0 then r else 10.0
  }

  /** The drawing once the size and the lines are chosen. */
  function Place(x: real, y: real, w: real, h: real, t: TextSpec, mirrored: bool,
                 size: real, f: Fitted): Drawn
    requires f.lineH >= 0.0 && f.emptyLineH >= 0.0
  {
    var top := BlockTop(y, h, PadY(h), VAlignOf(t), f.totalH);
    Drawn(size, AlignOf(t), AnchorX(x, w, PadX(w), AlignOf(t), mirrored), top, f,
          Placements(f.lines, top, f.lineH, f.emptyLineH))
  }

  /** The size the shrinking loop settles on for `t` in a `w` by `h` rectangle. */
  function SizeFor(w: real, h: real, t: TextSpec, measure: (real, string) -> real): (s: real)
    ensures s >= 10.0
  {
    FitSize(t.content, StartSize(w, h, t), measure, InnerW(w), InnerH(h))
  }

  /** `drawTextInRect` as a value: `None` when nothing is drawn. */
  function Draw(x: real, y: real, w: real, h: real, t: TextSpec, mirrored: bool,
                measure: (real, string) -> real): Option<Drawn>
  {
    if !t.enabled || t.content == "" then None
    else
      var size := SizeFor(w, h, t, measure);
      Some(Place(x, y, w, h, t, mirrored, size,
                 Layout(t.content, size, measure, InnerW(w))))
  }

  lemma DrawUnfolds(x: real, y: real, w: real, h: real, t: TextSpec, mirrored: bool,
                    measure: (real, string) -> real, size: real, f: Fitted)
    requires t.enabled && t.content != ""
    requires size == SizeFor(w, h, t, measure)
    requires f == Layout(t.content, size, measure, InnerW(w))
    ensures Draw(x, y, w, h, t, mirrored, measure) == Some(Place(x, y, w, h, t, mirrored, size, f))
  {
  }

  /** The line loop of `drawTextInRect`. */
  method PlaceLines(lines: seq<string>, top: real, lh: real, elh: real)
    returns (placed: seq<(string, real)>)
    requires lh >= 0.0 && elh >= 0.0
    ensures placed == Placements(lines, top, lh, elh)
  {
    placed := [];
    var cy := top;
    for i := 0 to |lines|
      invariant cy == top + TotalHeight(lines[..i], lh, elh)
      invariant placed == Placements(lines[..i], top, lh, elh)
    {
      assert lines[..i + 1][..i] == lines[..i];
      if lines[i] == "" {
        cy := cy + elh;
      } else {
        placed := placed + [(lines[i], cy)];
        cy := cy + lh;
      }
    }
    assert lines[..|lines|] == lines;
  }

  /** `drawTextInRect(ctx, x, y, w, h, textCfg, mirrored)`. */
  method DrawTextInRect(x: real, y: real, w: real, h: real, t: TextSpec, mirrored: bool,
                        measure: (real, string) -> real)
    returns (d: Option<Drawn>)
    ensures d == Draw(x, y, w, h, t, mirrored, measure)
    ensures d.None? <==> !t.enabled || t.content == ""
  {
    if !t.enabled || t.content == "" {
      return None;
    }
    var padX := PadX(w);
    var padY := PadY(h);
    var size, fitted := FitText(t.content, StartSize(w, h, t), measure, InnerW(w), InnerH(h));
    DrawUnfolds(x, y, w, h, t, mirrored, measure, size, fitted);
    var align := AlignOf(t);
    var tx := AnchorX(x, w, padX, align, mirrored);
    var top := BlockTop(y, h, padY, VAlignOf(t), fitted.totalH);
    var placed := PlaceLines(fitted.lines, top, fitted.lineH, fitted.emptyLineH);
    d := Some(Drawn(size, align, tx, top, fitted, placed));
    assert d.value == Place(x, y, w, h, t, mirrored, size, fitted);
  }

  /** A block no taller than the padded height sits inside the padding whatever its
      vertical alignment. */
  lemma BlockStaysInside(y: real, h: real, valign: string, f: Fitted, top: real)
    requires f.lineH >= 0.0 && f.emptyLineH >= 0.0
    requires f.totalH <= InnerH(h) && f.totalH == TotalHeight(f.lines, f.lineH, f.emptyLineH)
    requires top == BlockTop(y, h, PadY(h), valign, f.totalH)
    ensures forall k :: 0 <= k < |Placements(f.lines, top, f.lineH, f.emptyLineH)| ==>
              var p := Placements(f.lines, top, f.lineH, f.emptyLineH)[k];
              y + PadY(h) <= p.1 && p.1 + f.lineH <= y + h - PadY(h)
  {
    assert y + PadY(h) <= top && top + f.totalH <= y + h - PadY(h);
    PlacementsWithinBlock(f.lines, top, f.lineH, f.emptyLineH);
  }

  /** When the loop stopped above 10 px the block fits: every drawn line lies between
      the top and the bottom padding, whatever the vertical alignment, and none is
      wider than the padded width. */
  lemma FittedTextStaysInside(x: real, y: real, w: real, h: real, t: TextSpec, mirrored: bool,
                              measure: (real, string) -> real, d: Drawn)
    requires Draw(x, y, w, h, t, mirrored, measure) == Some(d)
    requires d.fontSize > 10.0
    ensures forall k :: 0 <= k < |d.placed| ==>
              y + PadY(h) <= d.placed[k].1 && d.placed[k].1 + d.fitted.lineH <= y + h - PadY(h)
    ensures forall k :: 0 <= k < |d.fitted.lines| && d.fitted.lines[k] != "" ==>
              measure(d.fontSize, d.fitted.lines[k]) <= InnerW(w)
  {
    var size := SizeFor(w, h, t, measure);
    var f := Layout(t.content, size, measure, InnerW(w));
    DrawUnfolds(x, y, w, h, t, mirrored, measure, size, f);
    assert d == Place(x, y, w, h, t, mirrored, size, f);
    assert Fits(f, InnerW(w), InnerH(h));
    LayoutShape(t.content, size, measure, InnerW(w), f);
    MaxLineBounds(f.lines, measure, size);
    BlockStaysInside(y, h, VAlignOf(t), f, d.top);
  }

  // ---------------------------------------------------------------- entries of a zone

  /** The point a fraction `p` of the way along a side of length `len` from `origin`. */
  function Offset(origin: real, len: real, p: real): (v: real)
    requires 0.0 <= p <= 1.0
    ensures len >= 0.0 ==> origin <= v <= origin + len
  {
    assert len >= 0.0 ==> len * (1.0 - p) >= 0.0;
    origin + len * p
  }

  /** The rectangle of one text entry inside the zone rectangle `r`. */
  function EntryRect(r: Rect, e: TextSpec): (er: Rect)
    ensures er.w >= 8.0 && er.h >= 8.0
    ensures r.w >= 0.0 ==> r.x <= er.x <= r.x + r.w
    ensures r.h >= 0.0 ==> r.y <= er.y <= r.y + r.h
  {
    var xp := Clamp01(e.xPct.GetOr(0.0) / 100.0);
    var yp := Clamp01(e.yPct.GetOr(0.0) / 100.0);
    var wp := Clamp01(e.wPct.GetOr(100.0) / 100.0);
    var hp := Clamp01(e.hPct.GetOr(100.0) / 100.0);
    Rect(Offset(r.x, r.w, xp), Offset(r.y, r.h, yp),
         if 8.0 > r.w * wp then 8.0 else r.w * wp,
         if 8.0 > r.h * hp then 8.0 else r.h * hp)
  }

  /** An entry without percentages covers the whole zone (when the zone is at least
      8 px each way), and one whose percentages stay inside 0..100 and whose size is not
      raised to the 8 px minimum stays inside the zone. */
  lemma EntryRectInsideZone(r: Rect, e: TextSpec)
    requires r.w >= 8.0 && r.h >= 8.0
    ensures e.xPct.None? && e.yPct.None? && e.wPct.None? && e.hPct.None? ==>
              EntryRect(r, e) == r
    ensures var xp := Clamp01(e.xPct.GetOr(0.0) / 100.0);
            var wp := Clamp01(e.wPct.GetOr(100.0) / 100.0);
            xp + wp <= 1.0 && r.w * wp >= 8.0 ==> EntryRect(r, e).x + EntryRect(r, e).w <= r.x + r.w
  {
    var xp := Clamp01(e.xPct.GetOr(0.0) / 100.0);
    var wp := Clamp01(e.wPct.GetOr(100.0) / 100.0);
    if xp + wp <= 1.0 && r.w * wp >= 8.0 {
      var er := EntryRect(r, e);
      assert er.x == r.x + r.w * xp;
      assert er.w == r.w * wp;
      SharesWithin(r.x, r.w, xp, wp, er.x, er.w);
    }
  }

  /** Two shares of a side that add up to at most the whole fit in it together. */
  lemma SharesWithin(x: real, a: real, p: real, q: real, x': real, a': real)
    requires a >= 0.0 && p >= 0.0 && q >= 0.0 && p + q <= 1.0
    requires x' == x + a * p && a' == a * q
    ensures x' + a' <= x + a
  {
    assert a * (1.0 - (p + q)) >= 0.0;
    assert a * p + a * q + a * (1.0 - (p + q)) == a;
  }

  /** The entries `drawZoneTexts` draws: `textEntries` when the zone has that array,
      otherwise its legacy `text` block. */
  function EntriesOf(z: Zone): (es: seq<TextSpec>)
    ensures z.textEntries.None? ==> es == [z.text]
  {
    if z.textEntries.Some? then z.textEntries.value else [z.text]
  }

  /** One entry of `drawZoneTexts`, drawn in its own rectangle inside `r`. */
  function DrawEntry(r: Rect, e: TextSpec, mirrored: bool, measure: (real, string) -> real)
    : Option<Drawn>
  {
    var er := EntryRect(r, e);
    Draw(er.x, er.y, er.w, er.h, e, mirrored, measure)
  }

  lemma DrawEntryUnfolds(r: Rect, e: TextSpec, mirrored: bool, measure: (real, string) -> real,
                         er: Rect, d: Option<Drawn>)
    requires er == EntryRect(r, e) && d == Draw(er.x, er.y, er.w, er.h, e, mirrored, measure)
    ensures d == DrawEntry(r, e, mirrored, measure)
  {
  }

  /** `drawZoneTexts`: one drawing (or none) per entry. */
  method DrawZoneTexts(r: Rect, z: Zone, mirrored: bool, measure: (real, string) -> real)
    returns (ds: seq<Option<Drawn>>)
    ensures |ds| == |EntriesOf(z)|
    ensures forall k :: 0 <= k < |ds| ==> ds[k] == DrawEntry(r, EntriesOf(z)[k], mirrored, measure)
  {
    var entries := EntriesOf(z);
    ghost var want := seq(|entries|, k requires 0 <= k < |entries| => DrawEntry(r, entries[k], mirrored, measure));
    ds := [];
    for i := 0 to |entries|
      invariant ds == want[..i]
    {
      var er := EntryRect(r, entries[i]);
      var d := DrawTextInRect(er.x, er.y, er.w, er.h, entries[i], mirrored, measure);
      DrawEntryUnfolds(r, entries[i], mirrored, measure, er, d);
      PrefixSnoc(ds, want, i, d);
      ds := ds + [d];
    }
    assert want[..|entries|] == want;
  }
}
