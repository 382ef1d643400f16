/** What the chat client draws: one message line, the channel tree, the
    channel bar and the whole message buffer, as functions of the layout
    (width, separator, collapsed) that the client keeps in package variables. */
module Render {
  import opened Lipgloss

  // Layout constants of main.go.
  const NameWidth := 5
  const SeparatorWidth := 3
  const TreeWidth := 10
  /** Below this many message columns the layout collapses. */
  const CollapseBelow := 100
  /** Above this many rows a collapsed layout gives one row back. */
  const TallAbove := 15
  /** The styled " : " of the expanded layout (its grey colour is not modelled). */
  const ExpandedSeparator := " : "
  const CollapsedSeparator := " "
  const TreeHeader: Block := ["use/talk"]

  /** An incoming chat message: a mode glyph, a user and the text. */
  datatype Message = Message(mode: string, user: string, contents: string)

  /** A server and its channels, in the order the tree shows them. */
  datatype Server = Server(name: string, channels: seq<string>)

  type Tree = seq<Server>

  // ---------------------------------------------------------------------------
  // One message

  /** The width given to the contents column; never clamped, and it always
      counts a 3-column separator, whatever the separator is. */
  function ContentsWidth(width: int): int
  {
    width - NameWidth - SeparatorWidth - 1
  }

  /** nameStyle: wrapped at, right-aligned to and cut at NameWidth columns. */
  function NameStyle(user: string): Block
  {
    AlignRight(Wrap(Lines(user), NameWidth), NameWidth)
  }

  /** contentsStyle.Width(w): wrapped at and padded to w columns; a width of
      zero or less sets no width at all. */
  function ContentsStyle(contents: string, w: int): Block
  {
    if w > 0 then PadLines(Wrap(Lines(contents), w), w) else Lines(contents)
  }

  /** incomingMessage.String: mode, name, separator and contents side by side. */
  function RenderMessage(m: Message, width: int, separator: string): Block
  {
    JoinHorizontal([Lines(m.mode), NameStyle(m.user), Lines(separator),
                    ContentsStyle(m.contents, ContentsWidth(width))])
  }

  /** With no columns left for the contents (a message area of at most
      NameWidth + SeparatorWidth + 1 columns) nothing clamps the width: the
      style sets no width and the contents keep their own lines, unwrapped. */
  lemma UnclampedContents(contents: string, width: int)
    requires width <= NameWidth + SeparatorWidth + 1
    ensures ContentsStyle(contents, ContentsWidth(width)) == Lines(contents)
    ensures Height(ContentsStyle(contents, ContentsWidth(width))) == Newlines(contents) + 1
  {
    HeightOfLines(contents);
  }

  /** The name column is always exactly NameWidth wide. */
  lemma NameColumn(user: string)
    ensures Width(NameStyle(user)) == NameWidth
  {
    PaddedWidth(Wrap(Lines(user), NameWidth), NameWidth);
  }

  /** With a positive contents width the contents column is exactly that wide;
      single-line contents stay on one line exactly when they fit. */
  lemma ContentsColumn(contents: string, w: int)
    requires w > 0
    ensures Width(ContentsStyle(contents, w)) == w
    ensures '\n' !in contents ==> (Height(ContentsStyle(contents, w)) == 1 <==> |contents| <= w)
  {
    var wrapped := Wrap(Lines(contents), w);
    PaddedWidth(wrapped, w);
    if '\n' !in contents {
      SingleLine(contents);
      WrapKeepsLines([contents], w);
    }
  }

  /** A message line is as wide as its four columns together: the mode glyph,
      NameWidth, the separator actually drawn and the contents width. */
  lemma MessageWidth(m: Message, width: int, separator: string)
    requires ContentsWidth(width) > 0
    ensures Width(RenderMessage(m, width, separator))
         == Width(Lines(m.mode)) + NameWidth + Width(Lines(separator)) + ContentsWidth(width)
  {
    var mode, name, sep := Lines(m.mode), NameStyle(m.user), Lines(separator);
    var contents := ContentsStyle(m.contents, ContentsWidth(width));
    assert RenderMessage(m, width, separator) == JoinHorizontal([mode, name, sep, contents]);
    JoinFourSize(mode, name, sep, contents);
    NameColumn(m.user);
    ContentsColumn(m.contents, ContentsWidth(width));
  }

  /** A user name of at most NameWidth characters on one line stays one line. */
  lemma ShortName(user: string)
    requires '\n' !in user && |user| <= NameWidth
    ensures Height(NameStyle(user)) == 1
  {
    SingleLine(user);
    assert WrapLines([user], NameWidth) == Chunks(user, NameWidth) + WrapLines([], NameWidth);
  }

  /** A message is as tall as its tallest column, hence at least as tall as its
      wrapped contents; with a one-line mode, separator and short user name it is
      exactly as tall as the contents. */
  lemma MessageHeight(m: Message, width: int, separator: string)
    ensures Height(RenderMessage(m, width, separator))
         >= Height(ContentsStyle(m.contents, ContentsWidth(width)))
    ensures '\n' !in m.mode && '\n' !in m.user && |m.user| <= NameWidth && '\n' !in separator ==>
              Height(RenderMessage(m, width, separator)) == Height(ContentsStyle(m.contents, ContentsWidth(width)))
  {
    var mode, name, sep := Lines(m.mode), NameStyle(m.user), Lines(separator);
    var contents := ContentsStyle(m.contents, ContentsWidth(width));
    var r := RenderMessage(m, width, separator);
    assert Height(r) == Max(Height(mode), Max(Height(name), Max(Height(sep), Height(contents)))) by {
      assert r == JoinHorizontal([mode, name, sep, contents]);
      JoinFourSize(mode, name, sep, contents);
    }
    if '\n' !in m.mode && '\n' !in m.user && |m.user| <= NameWidth && '\n' !in separator {
      assert Height(mode) == 1 && Height(sep) == 1 by {
        SingleLine(m.mode);
        SingleLine(separator);
      }
      ShortName(m.user);
    }
  }

  // ---------------------------------------------------------------------------
  // The navigation panels

  /** channelStyle: a left border and one column of left padding. */
  function ChannelTag(c: string): Block
  {
    Bordered(PadLines(Lines(c), Width(Lines(c))))
  }

  /** A left border and one column of padding in front of every line. */
  function Bordered(lines: seq<string>): (r: seq<string>)
    ensures |r| == |lines|
  {
    if |lines| == 0 then [] else ["│ " + lines[0]] + Bordered(lines[1..])
  }

  /** The channel lines of one server, in order. */
  function ChannelLines(cs: seq<string>): seq<string>
  {
    if |cs| == 0 then [] else ChannelLines(cs[..|cs| - 1]) + ChannelTag(cs[|cs| - 1])
  }

  /** Under the header: each server's name followed by its channels. */
  function TreeLines(t: Tree): seq<string>
  {
    if |t| == 0 then []
    else TreeLines(t[..|t| - 1]) + Lines(t[|t| - 1].name) + ChannelLines(t[|t| - 1].channels)
  }

  /** treeStyle: one column of right padding inside TreeWidth columns. */
  function TreeStyle(b: Block): Block
  {
    PadLines(Wrap(b, TreeWidth - 1), TreeWidth)
  }

  /** tree.String: the vertical tree, or "" in the collapsed layout. */
  function TreePanel(t: Tree, collapsed: bool): Block
  {
    if collapsed then Empty else TreeStyle(TreeHeader + TreeLines(t))
  }

  /** barTreeStyle: one column of right padding. */
  function BarTag(c: string): Block
  {
    PadLines(Lines(c), Width(Lines(c)) + 1)
  }

  /** All channels of all servers, in tree order. */
  function Channels(t: Tree): seq<string>
  {
    if |t| == 0 then [] else Channels(t[..|t| - 1]) + t[|t| - 1].channels
  }

  /** The bar tags of the given channels joined left to right, starting from "". */
  function BarOf(cs: seq<string>): Block
  {
    if |cs| == 0 then Empty else Beside(BarOf(cs[..|cs| - 1]), BarTag(cs[|cs| - 1]))
  }

  /** tree.StringAsBar: the horizontal bar, or "" in the expanded layout. */
  function BarPanel(t: Tree, collapsed: bool): Block
  {
    if collapsed then BarOf(Channels(t)) else Empty
  }

  lemma ChannelLinesStep(cs: seq<string>, j: nat)
    requires j < |cs|
    ensures ChannelLines(cs[..j + 1]) == ChannelLines(cs[..j]) + ChannelTag(cs[j])
  {
    assert cs[..j + 1][..j] == cs[..j];
  }

  lemma TreeLinesStep(t: Tree, i: nat)
    requires i < |t|
    ensures TreeLines(t[..i + 1]) == TreeLines(t[..i]) + Lines(t[i].name) + ChannelLines(t[i].channels)
  {
    assert t[..i + 1][..i] == t[..i];
  }

  lemma ChannelsStep(t: Tree, i: nat)
    requires i < |t|
    ensures Channels(t[..i + 1]) == Channels(t[..i]) + t[i].channels
  {
    assert t[..i + 1][..i] == t[..i];
  }

  lemma BarOfSnoc(cs: seq<string>, c: string)
    ensures BarOf(cs + [c]) == Beside(BarOf(cs), BarTag(c))
  {
    assert (cs + [c])[..|cs|] == cs;
  }

  lemma BarOfStep(done: seq<string>, cs: seq<string>, j: nat)
    requires j < |cs|
    ensures BarOf(done + cs[..j + 1]) == Beside(BarOf(done + cs[..j]), BarTag(cs[j]))
  {
    assert done + cs[..j + 1] == (done + cs[..j]) + [cs[j]] by {
      assert cs[..j + 1] == cs[..j] + [cs[j]];
    }
    BarOfSnoc(done + cs[..j], cs[j]);
  }

  /** The tree is "" exactly in the collapsed layout; otherwise it takes exactly
      TreeWidth columns, the columns the expanded layout sets aside for it. */
  lemma TreePanelShape(t: Tree, collapsed: bool)
    ensures TreePanel(t, collapsed) == Empty <==> collapsed
    ensures Width(TreePanel(t, collapsed)) == if collapsed then 0 else TreeWidth
  {
    if !collapsed {
      PaddedWidth(Wrap(TreeHeader + TreeLines(t), TreeWidth - 1), TreeWidth);
    }
  }

  /** Every channel adds at least one column to the bar. */
  lemma {:induction false} BarWidth(cs: seq<string>)
    ensures Width(BarOf(cs)) >= |cs|
  {
    if |cs| > 0 {
      var c := cs[|cs| - 1];
      BarWidth(cs[..|cs| - 1]);
      BesideSize(BarOf(cs[..|cs| - 1]), BarTag(c));
      PaddedWidth(Lines(c), Width(Lines(c)) + 1);
    }
  }

  /** The bar is "" exactly when the layout is expanded or there is no channel. */
  lemma BarPanelShape(t: Tree, collapsed: bool)
    ensures BarPanel(t, collapsed) == Empty <==> !collapsed || |Channels(t)| == 0
  {
    if collapsed {
      BarWidth(Channels(t));
    }
  }

  /** At most one of the two panels is drawn; one is drawn unless the layout is
      collapsed and the tree has no channel at all. */
  lemma PanelsExclusive(t: Tree, collapsed: bool)
    ensures TreePanel(t, collapsed) == Empty || BarPanel(t, collapsed) == Empty
    ensures TreePanel(t, collapsed) != Empty || BarPanel(t, collapsed) != Empty
        <==> !collapsed || |Channels(t)| > 0
  {
    TreePanelShape(t, collapsed);
    BarPanelShape(t, collapsed);
  }

  // ---------------------------------------------------------------------------
  // The buffer

  /** AsStringSlice over the buffer: every message rendered, in arrival order. */
  function Stringify(msgs: seq<Message>, width: int, separator: string): seq<Block>
  {
    seq(|msgs|, i requires 0 <= i < |msgs| => RenderMessage(msgs[i], width, separator))
  }

  /** The k-th rendering is the k-th message's String. */
  lemma StringifyAt(msgs: seq<Message>, width: int, separator: string, k: nat)
    requires k < |msgs|
    ensures |Stringify(msgs, width, separator)| == |msgs|
    ensures Stringify(msgs, width, separator)[k] == RenderMessage(msgs[k], width, separator)
  {
  }

  /** A message appended to the buffer is rendered after all the earlier ones. */
  lemma StringifySnoc(msgs: seq<Message>, m: Message, width: int, separator: string)
    ensures Stringify(msgs + [m], width, separator)
         == Stringify(msgs, width, separator) + [RenderMessage(m, width, separator)]
  {
    var after := Stringify(msgs + [m], width, separator);
    var before := Stringify(msgs, width, separator);
    forall i | 0 <= i < |msgs|
      ensures after[i] == before[i]
    {
      assert (msgs + [m])[i] == msgs[i];
    }
    assert after[|msgs|] == RenderMessage(m, width, separator) by {
      assert (msgs + [m])[|msgs|] == m;
    }
  }

  /** bufferToViewport: the rendered messages joined vertically, and the height
      of that text. */
  function BufferToViewport(msgs: seq<Message>, width: int, separator: string): (r: (Block, nat))
    ensures r.1 == Height(r.0)
  {
    var joined := JoinVertical(Stringify(msgs, width, separator));
    (joined, Height(joined))
  }

  /** The text of the viewport is the vertical join of the rendered messages. */
  lemma BufferText(msgs: seq<Message>, width: int, separator: string)
    ensures BufferToViewport(msgs, width, separator).0 == JoinVertical(Stringify(msgs, width, separator))
  {
  }

  /** The height of the joined buffer is the messages' heights added up (one line
      for an empty buffer), so it is at least one line per message. */
  lemma BufferHeight(msgs: seq<Message>, width: int, separator: string)
    ensures BufferToViewport(msgs, width, separator).1
         == if |msgs| == 0 then 1 else SumHeights(Stringify(msgs, width, separator))
    ensures BufferToViewport(msgs, width, separator).1 >= |msgs|
  {
    BufferText(msgs, width, separator);
  }

  /** Appending a message to a non-empty buffer adds exactly that message's
      height to the joined text, and leaves the earlier lines where they were. */
  lemma AppendHeight(msgs: seq<Message>, m: Message, width: int, separator: string)
    requires |msgs| > 0
    ensures BufferToViewport(msgs + [m], width, separator).1
         == BufferToViewport(msgs, width, separator).1 + Height(RenderMessage(m, width, separator))
    ensures BufferToViewport(msgs, width, separator).0
         <= BufferToViewport(msgs + [m], width, separator).0
  {
    BufferText(msgs, width, separator);
    BufferText(msgs + [m], width, separator);
    StringifySnoc(msgs, m, width, separator);
    JoinVerticalSnoc(Stringify(msgs, width, separator), RenderMessage(m, width, separator));
  }

  /** Line j of the k-th message's rendering is line SumHeights(...) + j of the
      joined buffer: the join follows arrival order. */
  lemma ArrivalOrder(msgs: seq<Message>, width: int, separator: string, k: nat, j: nat)
    requires k < |msgs| && j < Height(Stringify(msgs, width, separator)[k])
    ensures var strs := Stringify(msgs, width, separator);
      var text := BufferToViewport(msgs, width, separator).0;
      SumHeights(strs[..k]) + j < |text| && text[SumHeights(strs[..k]) + j] == strs[k][j]
  {
    BufferText(msgs, width, separator);
    StackedAt(Stringify(msgs, width, separator), k, j);
  }
}
