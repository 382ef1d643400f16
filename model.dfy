/** The chat client's state and its updates: the layout that main.go keeps in
    package variables, the Bubble Tea model (message buffer, viewport, channel
    tree, text input), and what a resize, an incoming message and a key press
    do to them. */
module Talk {
  import opened Lipgloss
  import opened Render

  /** What a resize decides: the layout mode, the message area and the separator. */
  datatype Layout = Layout(collapsed: bool, width: int, height: int, separator: string)

  /** The layout for a terminal of w columns and h rows. The mode threshold is
      taken after the tree's columns are set aside, so a terminal collapses below
      CollapseBelow + TreeWidth columns; a collapsed layout gets the tree's columns
      back, and on a tall terminal gives up one more row. */
  function ComputeLayout(w: int, h: int): (l: Layout)
    ensures l.collapsed <==> w < CollapseBelow + TreeWidth
    ensures l.collapsed ==> l.width == w && l.separator == CollapsedSeparator
    ensures l.collapsed ==> l.height == if h - 1 > TallAbove then h - 2 else h - 1
    ensures !l.collapsed ==> l.width == w - TreeWidth >= CollapseBelow
    ensures !l.collapsed ==> l.height == h - 1 && l.separator == ExpandedSeparator
  {
    var columns, rows := w - TreeWidth, h - 1;
    if columns < CollapseBelow then
      Layout(true, columns + TreeWidth, if rows > TallAbove then rows - 1 else rows, CollapsedSeparator)
    else
      Layout(false, columns, rows, ExpandedSeparator)
  }

  /** inputPad: blanks under the mode and name columns, then the separator. */
  function InputPad(separator: string): (r: string)
    ensures |r| == NameWidth + 1 + |separator| && r[NameWidth + 1..] == separator
    ensures forall i :: 0 <= i < NameWidth + 1 ==> r[i] == ' '
  {
    Spaces(NameWidth + 1) + separator
  }

  /** The message area's columns are spent on a one-column mode glyph, the name,
      the separator and the contents. This adds up to the whole width in the
      expanded layout only: the collapsed separator is one column, yet the
      contents width still counts three, so two columns stay unused. */
  lemma GutterBudget(m: Message, w: int, h: int)
    requires Width(Lines(m.mode)) == 1
    requires ContentsWidth(ComputeLayout(w, h).width) > 0
    ensures var l := ComputeLayout(w, h);
      Width(RenderMessage(m, l.width, l.separator)) == if l.collapsed then l.width - 2 else l.width
  {
    var l := ComputeLayout(w, h);
    MessageWidth(m, l.width, l.separator);
    SingleLine(l.separator);
  }

  /** The input line starts in the column where every message's contents start:
      inputPad covers the mode glyph, the name column and the separator. */
  lemma InputAligned(m: Message, w: int, h: int)
    requires Width(Lines(m.mode)) == 1
    ensures var l := ComputeLayout(w, h);
      |InputPad(l.separator)| == Width(Lines(m.mode)) + Width(NameStyle(m.user)) + Width(Lines(l.separator))
  {
    var l := ComputeLayout(w, h);
    NameColumn(m.user);
    SingleLine(l.separator);
  }

  /** At 20 terminal columns the layout is collapsed and the contents column is
      11 wide, so a one-line text of 11 characters stays on one line; at 15
      columns the column is 6 wide and the same text wraps. */
  lemma NarrowContents(h: int, text: string)
    requires '\n' !in text && |text| == 11
    ensures ComputeLayout(20, h).collapsed && ContentsWidth(ComputeLayout(20, h).width) == 11
    ensures Height(ContentsStyle(text, ContentsWidth(ComputeLayout(20, h).width))) == 1
    ensures ContentsWidth(ComputeLayout(15, h).width) == 6
    ensures Height(ContentsStyle(text, ContentsWidth(ComputeLayout(15, h).width))) > 1
  {
    assert ContentsWidth(ComputeLayout(20, h).width) == 11;
    assert ContentsWidth(ComputeLayout(15, h).width) == 6;
    ContentsColumn(text, 11);
    ContentsColumn(text, 6);
  }

  /** model.View: the tree to the left of a column holding the bar, the viewport's
      own rendering and the input line. */
  function View(t: Tree, collapsed: bool, inputPad: string, viewportView: Block, inputView: string): Block
  {
    JoinHorizontal([TreePanel(t, collapsed),
                    JoinVertical([BarPanel(t, collapsed), viewportView, Lines(inputPad + inputView)])])
  }

  /** The screen is the right-hand column, widened by exactly TreeWidth columns in
      the expanded layout and not at all in the collapsed one. */
  lemma ViewWidth(t: Tree, collapsed: bool, inputPad: string, viewportView: Block, inputView: string)
    ensures var column := JoinVertical([BarPanel(t, collapsed), viewportView, Lines(inputPad + inputView)]);
      Width(View(t, collapsed, inputPad, viewportView, inputView))
        == (if collapsed then 0 else TreeWidth) + Width(column)
  {
    var column := JoinVertical([BarPanel(t, collapsed), viewportView, Lines(inputPad + inputView)]);
    assert View(t, collapsed, inputPad, viewportView, inputView) == JoinHorizontal([TreePanel(t, collapsed), column]);
    JoinHorizontalPair(TreePanel(t, collapsed), column);
    BesideSize(TreePanel(t, collapsed), column);
    TreePanelShape(t, collapsed);
  }

  /** The fields of the viewport widget that the client sets. yPosition stands for
      the rest of the widget's state, which re-creating it resets. */
  datatype Viewport = Viewport(width: int, height: int, yOffset: int, yPosition: int, lines: seq<string>)

  /** The events the client receives. */
  datatype Msg =
    | KeyMsg(key: string)
    | WindowSizeMsg(width: int, height: int)
    | IncomingMessage(message: Message)
    | OtherMsg

  /** The command an update hands back: none, quit, or whatever the text input
      returns for the key it was given. */
  datatype Cmd = NoCmd | Quit | InputCmd(key: string)

  /** HandleKey's dispatch: ctrl+c quits, enter does nothing, any other key goes
      to the text input. */
  function KeyCommand(key: string): (c: Cmd)
    ensures c == Quit <==> key == "ctrl+c"
    ensures c == NoCmd <==> key == "enter"
    ensures c.InputCmd? ==> c.key == key
  {
    match key
    case "ctrl+c" => Quit
    case "enter" => NoCmd
    case _ => InputCmd(key)
  }

  class Model {
    // The package-level variables of main.go.
    var ready: bool
    var collapsed: bool
    var width: int
    var height: int
    var separator: string
    var inputPad: string

    // The fields of the Bubble Tea model.
    var buffer: seq<Message>
    var viewport: Viewport
    var tree: Tree
    /** The keys handed to the text input widget, whose editing is not modelled. */
    var forwarded: seq<string>

    /** The layout variables are those of some resize. */
    ghost predicate LaidOut()
      reads this
    {
      separator == (if collapsed then CollapsedSeparator else ExpandedSeparator)
      && inputPad == InputPad(separator)
      && (collapsed ==> width < CollapseBelow + TreeWidth)
      && (!collapsed ==> width >= CollapseBelow)
    }

    /** The viewport holds the whole buffer rendered at the current layout and is
        scrolled to the height of that text. */
    ghost predicate Pinned()
      reads this
    {
      viewport.lines == BufferToViewport(buffer, width, separator).0
      && viewport.yOffset == BufferToViewport(buffer, width, separator).1
    }

    /** NewModel, with the package variables' initial values. */
    constructor ()
      ensures !ready && !collapsed && width == 0 && height == 0
      ensures separator == "" && inputPad == InputPad("")
      ensures buffer == [] && forwarded == [] && viewport == Viewport(0, 0, 0, 0, [])
      ensures tree == [Server("freenode", ["#rice", "#code", "#riz"])]
    {
      ready, collapsed := false, false;
      width, height := 0, 0;
      separator := "";
      inputPad := InputPad("");
      buffer, forwarded := [], [];
      viewport := Viewport(0, 0, 0, 0, []);
      tree := [Server("freenode", ["#rice", "#code", "#riz"])];
    }

    /** Update on a tea.WindowSizeMsg of w columns and h rows. The new layout
        depends on (w, h) alone; the viewport is re-created while the client is not
        ready (which it never becomes), sized to the message area, given the
        re-rendered buffer and scrolled to its height. */
    method Resize(w: int, h: int)
      modifies this`collapsed, this`width, this`height, this`separator, this`inputPad, this`viewport
      ensures Layout(collapsed, width, height, separator) == ComputeLayout(w, h)
      ensures inputPad == InputPad(separator)
      ensures viewport == Viewport(width, height,
                                   BufferToViewport(buffer, width, separator).1,
                                   if ready then old(viewport.yPosition) else 0,
                                   BufferToViewport(buffer, width, separator).0)
      ensures LaidOut() && Pinned()
    {
      ghost var layout := ComputeLayout(w, h);
      width, height := w - TreeWidth, h - 1;
      if width < CollapseBelow {
        collapsed := true;
        separator := CollapsedSeparator;
        width := width + TreeWidth;
        if height > TallAbove {
          height := height - 1;
        }
      } else {
        collapsed := false;
        separator := ExpandedSeparator;
      }
      assert Layout(collapsed, width, height, separator) == layout;
      ghost var yPosition := if ready then viewport.yPosition else 0;
      if !ready {
        viewport := Viewport(width, height, 0, 0, []);
      }
      inputPad := InputPad(separator);
      viewport := viewport.(width := width, height := height);
      var r := BufferToViewport(buffer, width, separator);
      viewport := viewport.(yOffset := r.1);
      viewport := viewport.(lines := r.0);  // SetContent
      assert viewport == Viewport(width, height, r.1, yPosition, r.0);
    }

    /** Update on an incomingMessage: the message goes at the end of the buffer and
        the viewport is re-rendered and re-pinned; the layout is left alone. On a
        pinned viewport over a non-empty buffer the scroll offset grows by exactly
        the new message's height. */
    method Append(msg: Message)
      modifies this`buffer, this`viewport
      ensures buffer == old(buffer) + [msg]
      ensures viewport == old(viewport).(yOffset := BufferToViewport(buffer, width, separator).1,
                                         lines := BufferToViewport(buffer, width, separator).0)
      ensures Pinned() && (old(LaidOut()) ==> LaidOut())
      ensures Layout(collapsed, width, height, separator) == old(Layout(collapsed, width, height, separator))
      ensures inputPad == old(inputPad) && forwarded == old(forwarded)
      ensures |old(buffer)| > 0 ==>
                viewport.yOffset == BufferToViewport(old(buffer), width, separator).1 + Height(RenderMessage(msg, width, separator))
    {
      if |buffer| > 0 {
        AppendHeight(buffer, msg, width, separator);
      }
      buffer := buffer + [msg];
      var r := BufferToViewport(buffer, width, separator);
      viewport := viewport.(yOffset := r.1);
      viewport := viewport.(lines := r.0);  // SetContent
    }

    /** model.HandleKey: ctrl+c quits and enter does nothing, both leaving the state
        as it is; every other key is handed to the text input. */
    method HandleKey(key: string) returns (cmd: Cmd)
      modifies this`forwarded
      ensures cmd == KeyCommand(key)
      ensures forwarded == if cmd.InputCmd? then old(forwarded) + [key] else old(forwarded)
      ensures buffer == old(buffer) && viewport == old(viewport) && inputPad == old(inputPad)
      ensures Layout(collapsed, width, height, separator) == old(Layout(collapsed, width, height, separator))
    {
      if key == "ctrl+c" {
        cmd := Quit;
      } else if key == "enter" {
        cmd := NoCmd;
      } else {
        forwarded := forwarded + [key];
        cmd := InputCmd(key);
      }
    }

    /** model.Update: dispatch on the kind of event. */
    method Update(msg: Msg) returns (cmd: Cmd)
      modifies this`collapsed, this`width, this`height, this`separator, this`inputPad,
               this`viewport, this`buffer, this`forwarded
      ensures msg.KeyMsg? ==>
                && cmd == KeyCommand(msg.key)
                && forwarded == (if cmd.InputCmd? then old(forwarded) + [msg.key] else old(forwarded))
                && buffer == old(buffer) && viewport == old(viewport) && inputPad == old(inputPad)
                && Layout(collapsed, width, height, separator) == old(Layout(collapsed, width, height, separator))
      ensures msg.WindowSizeMsg? ==>
                && cmd == NoCmd
                && Layout(collapsed, width, height, separator) == ComputeLayout(msg.width, msg.height)
                && viewport.width == width && viewport.height == height
                && viewport.yPosition == (if ready then old(viewport.yPosition) else 0)
                && buffer == old(buffer) && forwarded == old(forwarded) && LaidOut() && Pinned()
      ensures msg.IncomingMessage? ==>
                && cmd == NoCmd
                && buffer == old(buffer) + [msg.message] && forwarded == old(forwarded) && Pinned()
                && viewport.width == old(viewport.width) && viewport.height == old(viewport.height)
                && viewport.yPosition == old(viewport.yPosition) && inputPad == old(inputPad)
                && Layout(collapsed, width, height, separator) == old(Layout(collapsed, width, height, separator))
      ensures msg.OtherMsg? ==>
                && cmd == NoCmd
                && buffer == old(buffer) && viewport == old(viewport) && forwarded == old(forwarded)
                && inputPad == old(inputPad)
                && Layout(collapsed, width, height, separator) == old(Layout(collapsed, width, height, separator))
    {
      match msg
      case KeyMsg(key) =>
        cmd := HandleKey(key);
      case WindowSizeMsg(w, h) =>
        Resize(w, h);
        cmd := NoCmd;
      case IncomingMessage(m) =>
        Append(m);
        cmd := NoCmd;
      case OtherMsg =>
        cmd := NoCmd;
    }

    /** AsStringSlice: every message's String, in order, at the current layout. */
    method AsStringSlice(msgs: seq<Message>) returns (out: seq<Block>)
      ensures out == Stringify(msgs, width, separator)
    {
      out := [];
      for i := 0 to |msgs|
        invariant out == Stringify(msgs[..i], width, separator)
      {
        assert msgs[..i + 1] == msgs[..i] + [msgs[i]];
        StringifySnoc(msgs[..i], msgs[i], width, separator);
        out := out + [RenderMessage(msgs[i], width, separator)];
      }
      assert msgs[..|msgs|] == msgs;
    }

    /** tree.String: builds the vertical tree line by line, then draws it only in
        the expanded layout. */
    method TreeString(t: Tree) returns (s: Block)
      ensures s == TreePanel(t, collapsed)
    {
      var tr := TreeHeader;
      for i := 0 to |t|
        invariant tr == TreeHeader + TreeLines(t[..i])
      {
        var server := t[i];
        ghost var before := tr;
        tr := JoinVertical([tr, Lines(server.name)]);
        assert tr == before + Lines(server.name) by {
          JoinVerticalPair(before, Lines(server.name));
        }
        ghost var prefix := tr;
        var cs := server.channels;
        for j := 0 to |cs|
          invariant tr == prefix + ChannelLines(cs[..j])
        {
          ghost var prev := tr;
          tr := JoinVertical([tr, ChannelTag(cs[j])]);
          assert tr == prefix + ChannelLines(cs[..j + 1]) by {
            JoinVerticalPair(prev, ChannelTag(cs[j]));
            ChannelLinesStep(cs, j);
            Regroup3(prefix, ChannelLines(cs[..j]), ChannelTag(cs[j]));
          }
        }
        assert tr == TreeHeader + TreeLines(t[..i + 1]) by {
          assert cs[..|cs|] == cs;
          TreeLinesStep(t, i);
          Regroup4(TreeHeader, TreeLines(t[..i]), Lines(server.name), ChannelLines(cs));
        }
      }
      assert t[..|t|] == t;
      if !collapsed {
        s := TreeStyle(tr);
      } else {
        s := Empty;
      }
    }

    /** tree.StringAsBar: joins every channel's tag left to right, then draws the
        bar only in the collapsed layout. */
    method BarString(t: Tree) returns (s: Block)
      ensures s == BarPanel(t, collapsed)
    {
      var tr := Empty;
      for i := 0 to |t|
        invariant tr == BarOf(Channels(t[..i]))
      {
        var cs := t[i].channels;
        ghost var done := Channels(t[..i]);
        assert done + cs[..0] == done;
        for j := 0 to |cs|
          invariant tr == BarOf(done + cs[..j])
        {
          BarOfStep(done, cs, j);
          JoinHorizontalPair(tr, BarTag(cs[j]));
          tr := JoinHorizontal([tr, BarTag(cs[j])]);
        }
        assert cs[..|cs|] == cs;
        ChannelsStep(t, i);
      }
      assert t[..|t|] == t;
      if collapsed {
        s := tr;
      } else {
        s := Empty;
      }
    }
  }
}
