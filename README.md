# talk: a model of the terminal chat client's layout and state

`talk` is a small terminal IRC-style chat client built on Bubble Tea and
lipgloss. This project models the core of `main.go`:

- the layout package variables (`collapsed`, `width`, `height`, the separator,
  `inputPad`) and how a terminal resize recomputes them;
- the rendering of one incoming message (`incomingMessage.String`), with its
  `width - 9` contents column;
- the two navigation panels, `tree.String` (a vertical tree drawn in the
  expanded layout) and `tree.StringAsBar` (a horizontal bar drawn in the
  collapsed layout);
- the append-only message buffer and `bufferToViewport`, which puts the whole
  buffer into the viewport and scrolls it to the height of the text;
- key handling (`HandleKey`) and the dispatch in `Update`.

There are three modules:

- `Lipgloss` (`lipgloss.dfy`) is a stand-in for the parts of the lipgloss
  library the client relies on. Rendered text is a `Block`, the sequence of
  its lines. Splitting a string into lines and joining them again gives the
  string back (`TextOfLines`), and joining lines without a newline and
  splitting again gives the lines back (`LinesOfText`), so a `Block` stands
  for the string lipgloss returns without losing anything. It has `Height`
  and `Width`, `JoinHorizontal` (top-aligned, every block padded to its own
  width) and `JoinVertical`. It also has a style width, which hard-wraps at
  the column and pads with spaces.
- `Render` (`render.dfy`) holds the client's constants, the `Message` and
  `Server` data, and the rendering of a message, of the buffer and of the two
  panels. These take the layout as parameters, because the source reads it
  from package variables.
- `Talk` (`model.dfy`) holds the layout computation, the screen (`View`,
  which models `model.View`), and the class
  `Model`. The class has the package variables and the Bubble Tea model as
  fields. `Resize`, `Append`, `HandleKey` and `Update` change them in
  place. The loops of `AsStringSlice`, `tree.String` and `tree.StringAsBar`
  are methods proved against the rendering functions.

Behaviours of the code that are easy to misread:

- The layout collapses when the terminal is narrower than 110 columns, not
  100. The 100-column threshold applies after the tree's 10 columns are
  taken off (`main.go:177-181`).
- The contents width `width - 9` is not clamped. When it is zero or less,
  the style sets no width, and the contents keep their own lines unwrapped
  (`Render.UnclampedContents`).
- The contents width always counts a 3-column separator. The collapsed
  separator is one column wide, so a collapsed message line is `width - 2`
  wide (`Talk.GutterBudget`).
- `ready` is never set to true. The viewport is re-created on every resize,
  which resets its other state (`Talk.Model.Resize`).
- At a 20-column terminal the layout is collapsed and the contents column
  is 11 wide, so an 11-character line stays on one line; at 15 columns the
  column is 6 wide and the same line wraps (`Talk.NarrowContents`).
- A collapsed layout with no channels draws neither panel
  (`Render.PanelsExclusive`).

## Model

| member | source | states |
|---|---|---|
| Talk.ComputeLayout | main.go:177-192 | collapsed exactly when the terminal has fewer than 110 columns; collapsed keeps all columns and the " " separator, and gives up one more row above 15 rows; expanded leaves 10 columns to the tree (at least 100 remain) and uses " : " |
| Talk.Model.constructor | main.go:15-34 | the initial package variables: not ready, not collapsed, zero size, empty separator, inputPad of six blanks; empty buffer; the freenode tree with #rice, #code, #riz |
| Talk.Model.Resize | main.go:176-205 | the new layout is ComputeLayout of the message size alone; inputPad is rebuilt from the new separator; the viewport is re-created (never ready), sized to the message area, and holds the re-rendered buffer scrolled to its height; the layout invariant and the pinned viewport hold afterwards |
| Talk.Model.Append | main.go:206-209 | the message goes at the end of the buffer; the viewport holds the re-rendered buffer and stays pinned; on a non-empty buffer the new scroll offset is the old buffer's height plus the new message's height; the layout, inputPad and the forwarded keys are untouched |
| Talk.Model.HandleKey | main.go:149-166 | the command is KeyCommand's; ctrl+c and enter change no state; any other key is handed to the text input; buffer, viewport, inputPad and layout never change |
| Talk.KeyCommand | main.go:154-162 | ctrl+c, and only ctrl+c, returns Quit; enter returns no command without consulting the text input; every other key is forwarded unchanged to the text input, whose command is returned |
| Talk.Model.Update | main.go:168-214 | a key returns HandleKey's command, records a forwarded key, and changes neither buffer, viewport, inputPad nor layout; a resize sets the layout from the message, rebuilds inputPad, sizes the viewport to the message area, keeps the buffer, and leaves the viewport pinned; an incoming message appends to the buffer, keeps the layout, inputPad and the viewport's size, and leaves the viewport pinned; any other event changes nothing |
| Talk.InputPad | main.go:33 | inputPad is NameWidth + 1 blanks followed by the separator |
| Talk.InputAligned | main.go:33 | for a one-column mode glyph, the input line starts in the same column as every message's contents: inputPad covers the mode, the name column and the separator |
| Talk.GutterBudget | main.go:66-73 | a message line fills the whole message area in the expanded layout, and leaves two columns unused in the collapsed one |
| Talk.NarrowContents | main.go:71 | at 20 terminal columns the layout collapses and an 11-character line fits the 11-column contents; at 15 columns the column is 6 wide and the same line wraps |
| Talk.ViewWidth | main.go:216-229 | the screen drawn by View is the message column, widened by exactly the tree's 10 columns in the expanded layout and not at all in the collapsed one |
| Talk.Model.AsStringSlice | main.go:36-42 | the loop's result is Stringify: every message's rendering, in buffer order |
| Talk.Model.TreeString | main.go:75-89 | the loop builds "use/talk", then each server's name followed by its channels' tags, in tree order; the result is that tree styled to 10 columns when expanded, and "" when collapsed |
| Talk.Model.BarString | main.go:91-104 | the loop sets the channel tags side by side in tree order, starting from ""; the result is that bar when collapsed, and "" when expanded |
| Render.MessageWidth | main.go:66-73 | with a positive contents width, a message line drawn by RenderMessage is as wide as the mode glyph, the 5-column name, the separator and the contents width together |
| Render.MessageHeight | main.go:66-73 | a message drawn by RenderMessage is at least as tall as its wrapped contents; with a one-line mode, separator and name of at most 5 characters it is exactly as tall |
| Render.NameColumn | main.go:27 | the name column is always exactly 5 columns wide |
| Render.ShortName | main.go:27 | a name of at most 5 characters on one line stays one line |
| Render.ContentsColumn | main.go:71 | with a positive width the contents column is exactly that wide, and one-line contents stay one line if and only if they fit |
| Render.UnclampedContents | main.go:71 | ContentsWidth is not clamped: with 9 or fewer message columns it is zero or less, and the contents are not wrapped: they keep their own lines, one more than their newlines |
| Render.TreePanelShape | main.go:75-89 | the tree drawn by TreePanel is "" if and only if the layout is collapsed, and otherwise exactly 10 columns wide |
| Render.BarWidth | main.go:93-97 | every channel adds at least one column to the bar |
| Render.BarPanelShape | main.go:91-104 | the bar drawn by BarPanel is "" if and only if the layout is expanded or there is no channel |
| Render.PanelsExclusive | main.go:75-104 | at most one panel is drawn; one is drawn unless the layout is collapsed and there is no channel |
| Render.StringifyAt | main.go:36-42 | Stringify has one rendering per message, and the k-th is the k-th message's RenderMessage |
| Render.StringifySnoc | main.go:36-42 | a message appended to the buffer is rendered after, and without changing, the renderings of the earlier ones |
| Render.BufferHeight | main.go:142-147 | the offset BufferToViewport returns, the buffer's height, is the messages' heights added up (one line when empty), so at least one line per message |
| Render.AppendHeight | main.go:206-209 | appending to a non-empty buffer adds exactly the new message's height, and the earlier text is a prefix of the new one |
| Render.ArrivalOrder | main.go:142-147 | line j of the k-th message is line (heights of the messages before it) + j of the viewport text |
| Lipgloss.HeightOfLines | main.go:146 | lipgloss.Height of a string is one more than its number of newlines |
| Lipgloss.JoinVerticalSnoc | main.go:144 | joining one more block vertically puts its lines under the others, which stay where they were |
| Lipgloss.StackedAt | main.go:144 | the vertical join keeps the blocks in order and does not mix their lines |

## Left out

- `main`, `Init`, `NewMessage` and the lorem-ipsum text: program start-up and random test data.
- Colours, the grey foreground and ANSI escape sequences: only the geometry of the rendered text is modelled, so the styled " : " is the plain " : ".
- lipgloss word wrap: a style width is modelled as a hard wrap at the column. Word boundaries and hyphenation are not modelled.
- JoinVertical's right padding: lipgloss pads lines narrower than the widest one with spaces. The model keeps them as they are. The padding changes no height, width or line order.
- MaxWidth truncation on the name and tree styles: in the model both columns are already no wider than their width after wrapping, so truncation changes nothing there.
- The textinput widget: its editing and its View are not modelled. A key handed to it is recorded in `forwarded`, and its command is `InputCmd(key)`.
- Talk.KeyCommand: the command the text input returns is a token `InputCmd(key)`, which is never `NoCmd`; in the program `m.input.Update` may itself return a nil command for an ordinary key, so "no command" does not identify enter there.
- Character widths: the stand-in measures a line by its number of characters (`MaxLen`, `Chunks`, `PadLeft`, `PadRight`). lipgloss measures terminal cells: wide runes take two cells and combining marks none. So `NameColumn`, `ContentsColumn`, `MessageWidth`, `GutterBudget` and the other width facts hold in the program for text of single-width characters only.
- The viewport widget's internals: only the fields the client sets are modelled. SetContent stores the lines, and the widget's own clamping of the offset and its View are not modelled. `yPosition` stands for the rest of its state, which re-creating the widget resets.
- Go integer overflow: widths are unbounded integers; a 64-bit terminal size is far beyond any value that matters here.
- Go value semantics: `Update` works on a copy of the model and returns it, while the package variables are shared. The model has one object whose fields change in place, which is what the returned model amounts to.
