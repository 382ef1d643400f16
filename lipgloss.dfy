/** A small stand-in for the parts of the lipgloss layout library that the chat
    client relies on. Rendered text is a Block: its lines, split at "\n". Only the
    geometry is kept (line counts, line lengths, padding with spaces, wrapping at a
    column); colours and the exact escape sequences are not modelled. */
module Lipgloss {

  /** Rendered text as its lines. Even the empty string "" has one (empty) line. */
  type Block = b: seq<string> | |b| > 0 witness [""]

  /** The empty string "" as a block. */
  const Empty: Block := [""]

  function Max(a: int, b: int): int { if a < b then b else a }

  /** lipgloss.Height: the number of lines. */
  function Height(b: Block): nat { |b| }

  /** The length of the longest line (0 for no lines). */
  function MaxLen(lines: seq<string>): (r: nat)
    ensures |lines| == 0 ==> r == 0
    ensures |lines| > 0 ==> |lines[0]| <= r
  {
    if |lines| == 0 then 0 else Max(|lines[0]|, MaxLen(lines[1..]))
  }

  /** No line is longer than MaxLen. */
  lemma {:induction false} MaxLenBounds(lines: seq<string>)
    ensures forall i :: 0 <= i < |lines| ==> |lines[i]| <= MaxLen(lines)
  {
    if |lines| > 0 {
      MaxLenBounds(lines[1..]);
      assert forall i :: 1 <= i < |lines| ==> lines[i] == lines[1..][i - 1];
    }
  }

  /** MaxLen is no more than any bound on the lines: it is the least such bound. */
  lemma {:induction false} MaxLenLeast(lines: seq<string>, k: nat)
    requires forall i :: 0 <= i < |lines| ==> |lines[i]| <= k
    ensures MaxLen(lines) <= k
  {
    if |lines| > 0 {
      assert forall i :: 0 <= i < |lines[1..]| ==> lines[1..][i] == lines[i + 1];
      MaxLenLeast(lines[1..], k);
    }
  }

  /** lipgloss.Width: the width of the widest line. */
  function Width(b: Block): nat { MaxLen(b) }

  // ---------------------------------------------------------------------------
  // Strings and blocks

  /** Splits a string at every "\n" (what lipgloss does before measuring or
      joining). */
  function Lines(s: string): Block
    decreases |s|
  {
    if |s| == 0 then [""]
    else
      var rest := Lines(s[1..]);
      if s[0] == '\n' then [""] + rest
      else [[s[0]] + rest[0]] + rest[1..]
  }

  /** No line of a split string holds a "\n". */
  lemma {:induction false} LinesHaveNoNewline(s: string)
    ensures forall i :: 0 <= i < |Lines(s)| ==> '\n' !in Lines(s)[i]
    decreases |s|
  {
    if |s| > 0 {
      LinesHaveNoNewline(s[1..]);
      var rest := Lines(s[1..]);
      if s[0] != '\n' {
        assert forall c :: c in [s[0]] + rest[0] ==> c == s[0] || c in rest[0];
        assert forall i :: 1 <= i < |rest| ==> Lines(s)[i] == rest[i];
      } else {
        assert forall i :: 1 <= i < |Lines(s)| ==> Lines(s)[i] == rest[i - 1];
      }
    }
  }

  /** Puts the lines of a block back together, separated by "\n". */
  function Text(b: Block): string
  {
    if |b| == 1 then b[0] else b[0] + "\n" + Text(b[1..])
  }

  /** A line put on top of a block is followed by a "\n" in the text. */
  lemma TextCons(x: string, b: Block)
    ensures Text([x] + b) == x + "\n" + Text(b)
  {
    assert ([x] + b)[0] == x && ([x] + b)[1..] == b;
  }

  /** A character put in front of the first line is put in front of the text. */
  lemma TextPrepend(c: char, b: Block)
    ensures Text([[c] + b[0]] + b[1..]) == [c] + Text(b)
  {
    var first: Block := [[c] + b[0]] + b[1..];
    assert first[0] == [c] + b[0] && first[1..] == b[1..];
    if |b| > 1 {
      var tail: Block := b[1..];
      assert Text(b) == b[0] + "\n" + Text(tail);
      assert Text(first) == ([c] + b[0]) + "\n" + Text(tail);
      Regroup4([c], b[0], "\n", Text(tail));
    }
  }

  /** Splitting a string and joining its lines gives the string back. */
  lemma {:induction false} TextOfLines(s: string)
    ensures Text(Lines(s)) == s
    decreases |s|
  {
    if |s| > 0 {
      TextOfLines(s[1..]);
      var rest := Lines(s[1..]);
      assert s == [s[0]] + s[1..];
      if s[0] == '\n' {
        assert Lines(s) == [""] + rest;
        TextCons("", rest);
      } else {
        assert Lines(s) == [[s[0]] + rest[0]] + rest[1..];
        TextPrepend(s[0], rest);
      }
    }
  }

  /** A first character other than "\n" opens the first line. */
  lemma LinesCons(c: char, s: string)
    requires c != '\n'
    ensures Lines([c] + s) == [[c] + Lines(s)[0]] + Lines(s)[1..]
  {
    assert ([c] + s)[0] == c && ([c] + s)[1..] == s;
  }

  /** Lines of a string that starts with a run a holding no "\n". */
  lemma {:induction false} LinesOfPrefix(a: string, t: string)
    requires '\n' !in a
    ensures Lines(a + t) == [a + Lines(t)[0]] + Lines(t)[1..]
    decreases |a|
  {
    var lt := Lines(t);
    if |a| > 0 {
      assert '\n' !in a[1..] by { assert forall c :: c in a[1..] ==> c in a; }
      LinesOfPrefix(a[1..], t);
      var rest := Lines(a[1..] + t);
      assert a == [a[0]] + a[1..];
      assert a + t == [a[0]] + (a[1..] + t) by { Regroup3([a[0]], a[1..], t); }
      LinesCons(a[0], a[1..] + t);
      assert rest[0] == a[1..] + lt[0] && rest[1..] == lt[1..];
      assert [a[0]] + (a[1..] + lt[0]) == a + lt[0] by { Regroup3([a[0]], a[1..], lt[0]); }
    } else {
      assert a + t == t && a + lt[0] == lt[0];
    }
  }

  /** Joining the lines of a block and splitting again gives the block back. */
  lemma {:induction false} LinesOfText(b: Block)
    requires forall i :: 0 <= i < |b| ==> '\n' !in b[i]
    ensures Lines(Text(b)) == b
    decreases |b|
  {
    if |b| == 1 {
      LinesOfPrefix(b[0], "");
      assert b[0] + "" == b[0];
    } else {
      var tail: Block := b[1..];
      LinesOfText(tail);
      LinesOfPrefix(b[0], "\n" + Text(tail));
      assert b[0] + "\n" + Text(tail) == b[0] + ("\n" + Text(tail));
      var nl := "\n" + Text(tail);
      assert nl[0] == '\n' && nl[1..] == Text(tail);
      assert Lines(nl) == [""] + tail;
      assert b[0] + "" == b[0];
      assert b == [b[0]] + tail;
    }
  }

  /** The number of "\n" in a string. */
  function Newlines(s: string): nat { multiset(s)['\n'] }

  /** A block's height is lipgloss.Height of its text: one more than the
      number of "\n" characters. */
  lemma {:induction false} HeightOfLines(s: string)
    ensures Height(Lines(s)) == Newlines(s) + 1
    decreases |s|
  {
    if |s| > 0 {
      HeightOfLines(s[1..]);
      assert s == [s[0]] + s[1..];
      assert multiset(s) == multiset([s[0]]) + multiset(s[1..]);
    }
  }

  /** A string without "\n" is a single line. */
  lemma SingleLine(s: string)
    requires '\n' !in s
    ensures Lines(s) == [s] && Width(Lines(s)) == |s|
  {
    LinesOfPrefix(s, "");
    assert s + "" == s;
  }

  // ---------------------------------------------------------------------------
  // Padding and wrapping

  /** strings.Repeat(" ", n), taking a negative count as zero. */
  function Spaces(n: int): (r: string)
    ensures |r| == Max(n, 0)
    ensures forall i :: 0 <= i < |r| ==> r[i] == ' '
  {
    seq(Max(n, 0), _ => ' ')
  }

  /** A line padded on the right with spaces to w columns (left alignment). */
  function PadRight(s: string, w: int): (r: string)
    ensures |r| == Max(|s|, w)
  {
    s + Spaces(w - |s|)
  }

  /** A line padded on the left with spaces to w columns (right alignment). */
  function PadLeft(s: string, w: int): (r: string)
    ensures |r| == Max(|s|, w)
  {
    Spaces(w - |s|) + s
  }

  /** Every line padded on the right to w columns. */
  function PadLines(lines: seq<string>, w: int): (r: seq<string>)
    ensures |r| == |lines|
  {
    if |lines| == 0 then [] else [PadRight(lines[0], w)] + PadLines(lines[1..], w)
  }

  /** Every line padded on the left to w columns. */
  function AlignRight(lines: seq<string>, w: int): (r: seq<string>)
    ensures |r| == |lines|
  {
    if |lines| == 0 then [] else [PadLeft(lines[0], w)] + AlignRight(lines[1..], w)
  }

  /** Padding lines to w columns makes them exactly as wide as the wider of
      the widest line and w. */
  lemma {:induction false} PaddedLinesWidth(lines: seq<string>, w: nat)
    ensures MaxLen(PadLines(lines, w)) == if |lines| == 0 then 0 else Max(MaxLen(lines), w)
    ensures MaxLen(AlignRight(lines, w)) == if |lines| == 0 then 0 else Max(MaxLen(lines), w)
  {
    if |lines| > 0 {
      PaddedLinesWidth(lines[1..], w);
      var p, q := PadLines(lines, w), AlignRight(lines, w);
      assert p[1..] == PadLines(lines[1..], w) && q[1..] == AlignRight(lines[1..], w);
    }
  }

  /** Padding a block to w columns makes it exactly as wide as the wider of
      itself and w, and keeps its height. */
  lemma PaddedWidth(b: Block, w: nat)
    ensures Height(PadLines(b, w)) == Height(b) && Width(PadLines(b, w)) == Max(Width(b), w)
    ensures Height(AlignRight(b, w)) == Height(b) && Width(AlignRight(b, w)) == Max(Width(b), w)
  {
    PaddedLinesWidth(b, w);
  }

  /** A line cut into pieces of at most w characters (Style.Width wraps at
      the column; lipgloss breaks at word boundaries first, which is not
      modelled). */
  function Chunks(s: string, w: int): (r: Block)
    requires w > 0
    ensures forall i :: 0 <= i < |r| ==> |r[i]| <= w
    ensures |r| == 1 <==> |s| <= w
    decreases |s|
  {
    if |s| <= w then [s] else [s[..w]] + Chunks(s[w..], w)
  }

  /** Every line of a block cut at column w. */
  function WrapLines(lines: seq<string>, w: int): (r: seq<string>)
    requires w > 0
    ensures forall i :: 0 <= i < |r| ==> |r[i]| <= w
    ensures |r| >= |lines|
  {
    if |lines| == 0 then []
    else
      var head, rest := Chunks(lines[0], w), WrapLines(lines[1..], w);
      assert forall i :: 0 <= i < |rest| ==> (head + rest)[|head| + i] == rest[i];
      head + rest
  }

  /** Wrapping adds no line exactly when every line already fits. */
  lemma {:induction false} WrapKeepsLines(lines: seq<string>, w: int)
    requires w > 0
    ensures |WrapLines(lines, w)| == |lines| <==> forall i :: 0 <= i < |lines| ==> |lines[i]| <= w
  {
    if |lines| > 0 {
      WrapKeepsLines(lines[1..], w);
      assert forall i :: 1 <= i < |lines| ==> lines[i] == lines[1..][i - 1];
    }
  }

  /** A block wrapped at column w: no line is wider than w. */
  function Wrap(b: Block, w: int): (r: Block)
    requires w > 0
    ensures Width(r) <= w && Height(r) >= Height(b)
  {
    var r := WrapLines(b, w);
    MaxLenLeast(r, w);
    r
  }

  // ---------------------------------------------------------------------------
  // Joining blocks

  /** The first line of some lines, or "" when there is none. */
  function Top(lines: seq<string>): string
  {
    if |lines| == 0 then "" else lines[0]
  }

  /** The lines after the first. */
  function Below(lines: seq<string>): seq<string>
  {
    if |lines| == 0 then [] else lines[1..]
  }

  /** Two columns of lines side by side, row by row: the left one padded to wa
      columns, the right one to wb, and the shorter one continued with "". */
  function Rows(a: seq<string>, b: seq<string>, wa: int, wb: int): (r: seq<string>)
    ensures |r| == Max(|a|, |b|)
    decreases |a| + |b|
  {
    if |a| == 0 && |b| == 0 then []
    else [PadRight(Top(a), wa) + PadRight(Top(b), wb)] + Rows(Below(a), Below(b), wa, wb)
  }

  /** When no line is wider than its column, every row is exactly as wide as
      the two columns together. */
  lemma {:induction false} RowsWidth(a: seq<string>, b: seq<string>, wa: nat, wb: nat)
    requires forall i :: 0 <= i < |a| ==> |a[i]| <= wa
    requires forall i :: 0 <= i < |b| ==> |b[i]| <= wb
    ensures MaxLen(Rows(a, b, wa, wb)) == if |a| == 0 && |b| == 0 then 0 else wa + wb
    decreases |a| + |b|
  {
    if |a| > 0 || |b| > 0 {
      var r := Rows(a, b, wa, wb);
      assert |r[0]| == wa + wb by {
        assert |Top(a)| <= wa && |Top(b)| <= wb;
      }
      assert forall i :: 0 <= i < |Below(a)| ==> Below(a)[i] == a[i + 1];
      assert forall i :: 0 <= i < |Below(b)| ==> Below(b)[i] == b[i + 1];
      RowsWidth(Below(a), Below(b), wa, wb);
      assert r[1..] == Rows(Below(a), Below(b), wa, wb);
    }
  }

  /** Two blocks side by side, top-aligned: the shorter one gets blank lines
      at the bottom and every line of each block is padded to that block's
      width, as lipgloss.JoinHorizontal(lipgloss.Top, a, b) does. */
  function Beside(a: Block, b: Block): Block
  {
    Rows(a, b, Width(a), Width(b))
  }

  /** Side by side, the widths add up and the height is the taller one's. */
  lemma BesideSize(a: Block, b: Block)
    ensures Height(Beside(a, b)) == Max(Height(a), Height(b))
    ensures Width(Beside(a, b)) == Width(a) + Width(b)
  {
    MaxLenBounds(a);
    MaxLenBounds(b);
    RowsWidth(a, b, Width(a), Width(b));
  }

  /** lipgloss.JoinHorizontal(lipgloss.Top, bs...): no blocks give "", one
      block is returned as it is. */
  function JoinHorizontal(bs: seq<Block>): Block
  {
    if |bs| == 0 then Empty
    else if |bs| == 1 then bs[0]
    else Beside(bs[0], JoinHorizontal(bs[1..]))
  }

  /** Joining two blocks horizontally sets them side by side. */
  lemma JoinHorizontalPair(a: Block, b: Block)
    ensures JoinHorizontal([a, b]) == Beside(a, b)
  {
    assert [a, b][1..] == [b];
  }

  /** Four blocks side by side: widths add up, the tallest sets the height. */
  lemma JoinFourSize(a: Block, b: Block, c: Block, d: Block)
    ensures Width(JoinHorizontal([a, b, c, d])) == Width(a) + Width(b) + Width(c) + Width(d)
    ensures Height(JoinHorizontal([a, b, c, d])) == Max(Height(a), Max(Height(b), Max(Height(c), Height(d))))
  {
    var parts := [a, b, c, d];
    assert parts[1..] == [b, c, d] && parts[1..][1..] == [c, d] && parts[1..][1..][1..] == [d];
    assert JoinHorizontal([d]) == d;
    assert JoinHorizontal([c, d]) == Beside(c, d);
    assert JoinHorizontal([b, c, d]) == Beside(b, Beside(c, d));
    assert JoinHorizontal(parts) == Beside(a, Beside(b, Beside(c, d)));
    BesideSize(c, d);
    BesideSize(b, Beside(c, d));
    BesideSize(a, Beside(b, Beside(c, d)));
  }

  /** The lines of the blocks, one block after the other. */
  function Stack(bs: seq<Block>): (r: seq<string>)
    ensures |r| == SumHeights(bs)
  {
    if |bs| == 0 then [] else Stack(bs[..|bs| - 1]) + bs[|bs| - 1]
  }

  function SumHeights(bs: seq<Block>): (r: nat)
    ensures r >= |bs|
  {
    if |bs| == 0 then 0 else SumHeights(bs[..|bs| - 1]) + Height(bs[|bs| - 1])
  }

  /** lipgloss.JoinVertical(lipgloss.Left, bs...): the blocks' lines one block
      after the other; no blocks give "". (The spaces lipgloss appends to lines
      narrower than the widest one are not modelled.) */
  function JoinVertical(bs: seq<Block>): (r: Block)
    ensures Height(r) == if |bs| == 0 then 1 else SumHeights(bs)
  {
    if |bs| == 0 then Empty else Stack(bs)
  }

  /** Lines appended in three runs, grouped either way. */
  lemma Regroup3<T>(a: seq<T>, b: seq<T>, c: seq<T>)
    ensures (a + b) + c == a + (b + c)
  {
  }

  /** Lines appended in four runs, regrouped. */
  lemma Regroup4<T>(a: seq<T>, b: seq<T>, c: seq<T>, d: seq<T>)
    ensures ((a + b) + c) + d == a + ((b + c) + d)
  {
  }

  /** Joining two blocks vertically puts the second one's lines under the first's. */
  lemma JoinVerticalPair(a: Block, b: Block)
    ensures JoinVertical([a, b]) == a + b
  {
    assert [a, b][..1] == [a];
    assert [a][..0] == [];
    assert Stack([a]) == a;
    assert Stack([a, b]) == Stack([a]) + b;
  }

  /** Joining one more block vertically puts its lines under the others',
      which stay where they were. */
  lemma JoinVerticalSnoc(bs: seq<Block>, b: Block)
    requires |bs| > 0
    ensures JoinVertical(bs + [b]) == JoinVertical(bs) + b
    ensures Height(JoinVertical(bs + [b])) == Height(JoinVertical(bs)) + Height(b)
    ensures JoinVertical(bs) <= JoinVertical(bs + [b])
  {
    assert (bs + [b])[..|bs|] == bs;
  }

  /** Line j of the k-th block sits at line SumHeights(bs[..k]) + j of the
      vertical join: the join keeps the blocks in order and does not mix them. */
  lemma {:induction false} StackedAt(bs: seq<Block>, k: nat, j: nat)
    requires k < |bs| && j < |bs[k]|
    ensures SumHeights(bs[..k]) + j < |JoinVertical(bs)|
    ensures JoinVertical(bs)[SumHeights(bs[..k]) + j] == bs[k][j]
    decreases |bs|
  {
    var n := |bs| - 1;
    var init := bs[..n];
    if k < n {
      StackedAt(init, k, j);
      assert init[..k] == bs[..k];
      assert JoinVertical(init) == Stack(init);
    } else {
      assert init == bs[..k];
    }
  }
}
