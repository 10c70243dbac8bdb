/** The command pattern's text editor: a text buffer, a clipboard and a
    push-before-mutate undo stack, driven directly or through toolbar
    buttons bound to copy, paste and undo commands. */
module TextEditor {

  datatype Editor = Editor(text: string, clipboard: string, history: seq<string>)

  /** A new editor: empty text, empty clipboard, nothing to undo. */
  const NewEditor: Editor := Editor("", "", [])

  /** `s` is a prefix of `t`. */
  predicate IsPrefix(s: string, t: string) {
    |s| <= |t| && t[..|s|] == s
  }

  /** Every saved snapshot is a prefix of every later one and of the live
      text: the editor only ever appends, so undo always goes back to an
      earlier, shorter text. */
  predicate Consistent(e: Editor) {
    var states := e.history + [e.text];
    forall i, j :: 0 <= i <= j < |states| ==> IsPrefix(states[i], states[j])
  }

  /** `undo`: with a non-empty history, the text becomes the most recent
      snapshot and that snapshot is dropped; otherwise nothing changes. */
  function Undo(e: Editor): (r: Editor)
    ensures |e.history| == 0 ==> r == e
    ensures |e.history| > 0 ==>
      && r.text == e.history[|e.history| - 1]
      && r.history + [r.text] == e.history
      && r.clipboard == e.clipboard
  {
    if |e.history| > 0 then
      var n := |e.history| - 1;
      var r := Editor(e.history[n], e.clipboard, e.history[..n]);
      assert r.history + [r.text] == e.history;
      r
    else e
  }

  /** `type(t)`: the old text is pushed, then `t` is appended; undo takes
      exactly this step back. */
  function Type(e: Editor, t: string): (r: Editor)
    ensures IsPrefix(e.text, r.text) && r.text[|e.text|..] == t
    ensures r.clipboard == e.clipboard
    ensures r.history == e.history + [e.text]
    ensures Undo(r) == e
  {
    var r := Editor(e.text + t, e.clipboard, e.history + [e.text]);
    assert r.history[..|e.history|] == e.history;
    r
  }

  /** `copy()`: the clipboard takes the current text; text and history stay. */
  function Copy(e: Editor): (r: Editor)
    ensures r.text == e.text && r.history == e.history
    ensures r.clipboard == e.text
  {
    e.(clipboard := e.text)
  }

  /** `paste()`: the old text is pushed, then the clipboard is appended; the
      clipboard itself is kept, and undo takes exactly this step back. */
  function Paste(e: Editor): (r: Editor)
    ensures IsPrefix(e.text, r.text) && r.text[|e.text|..] == e.clipboard
    ensures r.clipboard == e.clipboard
    ensures r.history == e.history + [e.text]
    ensures Undo(r) == e
  {
    var r := Editor(e.text + e.clipboard, e.clipboard, e.history + [e.text]);
    assert r.history[..|e.history|] == e.history;
    r
  }

  /** Appending to the text after pushing the old text keeps the snapshots
      a prefix chain. */
  lemma PushAppendConsistent(e: Editor, t: string)
    requires Consistent(e)
    ensures Consistent(Editor(e.text + t, e.clipboard, e.history + [e.text]))
  {
    var r := Editor(e.text + t, e.clipboard, e.history + [e.text]);
    var old_ := e.history + [e.text];
    var states := r.history + [r.text];
    assert states == old_ + [r.text];
    forall i, j | 0 <= i <= j < |states|
      ensures IsPrefix(states[i], states[j])
    {
      if j == |states| - 1 && i < j {
        assert old_[|old_| - 1] == e.text;
        assert IsPrefix(old_[i], old_[|old_| - 1]);
        assert r.text[..|e.text|] == e.text;
      }
    }
  }

  /** Undo keeps the prefix chain and returns to a prefix of the current text. */
  lemma UndoConsistent(e: Editor)
    requires Consistent(e)
    ensures Consistent(Undo(e))
    ensures IsPrefix(Undo(e).text, e.text)
  {
    if |e.history| > 0 {
      var r := Undo(e);
      var states := e.history + [e.text];
      assert r.history + [r.text] == states[..|states| - 1];
      assert IsPrefix(states[|states| - 2], states[|states| - 1]);
    }
  }

  /** `type`, `copy`, `paste` and `undo` all preserve consistency, so every
      editor reachable from a new one is consistent. */
  lemma {:induction false} OperationsPreserveConsistency(e: Editor, t: string)
    requires Consistent(e)
    ensures Consistent(Type(e, t))
    ensures Consistent(Copy(e))
    ensures Consistent(Paste(e))
    ensures Consistent(Undo(e))
  {
    PushAppendConsistent(e, t);
    PushAppendConsistent(e, e.clipboard);
    UndoConsistent(e);
  }

  /** The commands a toolbar button can be bound to. */
  datatype EditorCommand = CopyCommand | PasteCommand | UndoCommand

  /** `Command.execute()` for each concrete editor command. Every command
      keeps the editor consistent; copy leaves the text and history alone
      and paste can be taken back by one undo. */
  function Execute(c: EditorCommand, e: Editor): (r: Editor)
    ensures Consistent(e) ==> Consistent(r)
    ensures c == CopyCommand ==> r.text == e.text && r.history == e.history && r.clipboard == e.text
    ensures c == PasteCommand ==> Undo(r) == e && r.text == e.text + e.clipboard
    ensures c == UndoCommand ==> r == Undo(e)
  {
    var r := match c
      case CopyCommand => Copy(e)
      case PasteCommand => Paste(e)
      case UndoCommand => Undo(e);
    if Consistent(e) then OperationsPreserveConsistency(e, ""); r else r
  }

  /** The toolbar's button table. */
  type Toolbar = map<string, EditorCommand>

  /** `setCommand`: binds the button, replacing any earlier binding, and
      leaves every other button as it was. */
  function SetCommand(tb: Toolbar, button: string, c: EditorCommand): (r: Toolbar)
    ensures button in r && r[button] == c
    ensures r.Keys == tb.Keys + {button}
    ensures forall b :: b in tb && b != button ==> r[b] == tb[b]
  {
    tb[button := c]
  }

  /** `clickButton`: the commands actually executed (at most the one bound
      to the button) and the editor afterwards. */
  function ClickButton(tb: Toolbar, e: Editor, button: string): (r: (seq<EditorCommand>, Editor))
    ensures button !in tb ==> r.0 == [] && r.1 == e
    ensures button in tb ==> r.0 == [tb[button]]
    ensures |r.0| == 1 ==> r.1 == Execute(r.0[0], e)
  {
    if button in tb then ([tb[button]], Execute(tb[button], e)) else ([], e)
  }

  /** Typing a string one character per call. */
  function TypeEach(e: Editor, s: string): Editor
    decreases |s|
  {
    if |s| == 0 then e else TypeEach(Type(e, [s[0]]), s[1..])
  }

  /** Typing characters one at a time appends the whole string and pushes one
      snapshot per character. */
  lemma {:induction false} TypeEachAppends(e: Editor, s: string)
    ensures TypeEach(e, s).text == e.text + s
    ensures TypeEach(e, s).clipboard == e.clipboard
    ensures |TypeEach(e, s).history| == |e.history| + |s|
    ensures |s| > 0 ==> TypeEach(e, s).history[|TypeEach(e, s).history| - 1] == e.text + s[..|s| - 1]
    decreases |s|
  {
    if |s| > 0 {
      var e1 := Type(e, [s[0]]);
      TypeEachAppends(e1, s[1..]);
      assert e.text + [s[0]] + s[1..] == e.text + s;
      if |s| > 1 {
        assert e1.text + s[1..][..|s[1..]| - 1] == e.text + s[..|s| - 1];
      }
    }
  }

  /** The toolbar the demo sets up. */
  const DemoToolbar: Toolbar :=
    SetCommand(SetCommand(SetCommand(map[], "copy", CopyCommand), "paste", PasteCommand), "undo", UndoCommand)

  /** After typing a non-empty string character by character, the buttons
      copy, paste, undo, undo leave the string without its last character:
      the first undo removes the paste, the second the last keystroke. */
  lemma {:induction false} CopyPasteUndoUndo(s: string)
    requires |s| > 0
    ensures var typed := TypeEach(NewEditor, s);
      var afterCopy := ClickButton(DemoToolbar, typed, "copy").1;
      var afterPaste := ClickButton(DemoToolbar, afterCopy, "paste").1;
      var afterUndo := ClickButton(DemoToolbar, afterPaste, "undo").1;
      var afterUndo2 := ClickButton(DemoToolbar, afterUndo, "undo").1;
      && typed.text == s
      && afterPaste.text == s + s
      && afterUndo.text == s
      && afterUndo2.text == s[..|s| - 1]
  {
    var typed := TypeEach(NewEditor, s);
    TypeEachAppends(NewEditor, s);
    assert "" + s == s;
    var afterCopy := Copy(typed);
    var afterPaste := Paste(afterCopy);
    assert Undo(afterPaste) == afterCopy;
  }

  /** The text the demo types, one character at a time. */
  const DemoTyped: string := "Hola Mundo!"

  /** The demo's text loses exactly its final '!'. */
  lemma DemoTypedDropLast()
    ensures |DemoTyped| > 0 && DemoTyped[..|DemoTyped| - 1] == "Hola Mundo"
  {
  }

  /** The demo: type "Hola Mundo!", then copy, paste, undo, undo; the final
      text is "Hola Mundo". */
  lemma EditingScenario()
    ensures var typed := TypeEach(NewEditor, DemoTyped);
      var afterCopy := ClickButton(DemoToolbar, typed, "copy").1;
      var afterPaste := ClickButton(DemoToolbar, afterCopy, "paste").1;
      var afterUndo := ClickButton(DemoToolbar, afterPaste, "undo").1;
      var afterUndo2 := ClickButton(DemoToolbar, afterUndo, "undo").1;
      afterUndo2.text == "Hola Mundo"
  {
    DemoTypedDropLast();
    CopyPasteUndoUndo(DemoTyped);
  }
}
