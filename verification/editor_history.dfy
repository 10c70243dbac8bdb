/** Immutable code-editor states updated through `copyWith`, and the
    cursor-based history that saves them and can redo. */
module EditorHistory {
  import opened Wrappers

  /** A `CodeEditorState`; all three fields are readonly. */
  datatype EditorState = EditorState(content: string, cursorPosition: int, unsavedChanges: bool)

  /** The `Partial<CodeEditorState>` argument of `copyWith`: each field is
      either supplied or absent (null and undefined alike). */
  datatype Patch = Patch(content: Option<string>, cursorPosition: Option<int>, unsavedChanges: Option<bool>)

  const NoChange: Patch := Patch(None, None, None)

  /** `copyWith`: a new state taking each supplied field from the patch and
      each absent one from the receiver. Because `??` only replaces null or
      undefined, a supplied "", 0 or false is used as given. */
  function CopyWith(s: EditorState, p: Patch): (r: EditorState)
    ensures p.content.Some? ==> r.content == p.content.value
    ensures p.content.None? ==> r.content == s.content
    ensures p.cursorPosition.Some? ==> r.cursorPosition == p.cursorPosition.value
    ensures p.cursorPosition.None? ==> r.cursorPosition == s.cursorPosition
    ensures p.unsavedChanges.Some? ==> r.unsavedChanges == p.unsavedChanges.value
    ensures p.unsavedChanges.None? ==> r.unsavedChanges == s.unsavedChanges
  {
    EditorState(
      p.content.GetOr(s.content),
      p.cursorPosition.GetOr(s.cursorPosition),
      p.unsavedChanges.GetOr(s.unsavedChanges))
  }

  /** The later patch wins field by field. */
  function Then(p: Patch, q: Patch): Patch {
    Patch(
      if q.content.Some? then q.content else p.content,
      if q.cursorPosition.Some? then q.cursorPosition else p.cursorPosition,
      if q.unsavedChanges.Some? then q.unsavedChanges else p.unsavedChanges)
  }

  /** An empty patch copies the state unchanged; two successive copies are
      one copy with the merged patch; a full patch ignores the receiver. */
  lemma CopyWithLaws(s: EditorState, t: EditorState, p: Patch, q: Patch)
    ensures CopyWith(s, NoChange) == s
    ensures CopyWith(CopyWith(s, p), q) == CopyWith(s, Then(p, q))
    ensures p.content.Some? && p.cursorPosition.Some? && p.unsavedChanges.Some? ==>
      CopyWith(s, p) == CopyWith(t, p)
  {
  }

  /** An explicit `false` or `0` is honoured rather than replaced. */
  lemma FalsyValuesHonoured(s: EditorState)
    ensures CopyWith(s, Patch(None, Some(0), Some(false))).cursorPosition == 0
    ensures !CopyWith(s, Patch(None, Some(0), Some(false))).unsavedChanges
    ensures CopyWith(s, Patch(Some(""), None, None)).content == ""
  {
  }

  /** `CodeEditorHistory`: the saved states and the cursor into them. */
  datatype History = History(entries: seq<EditorState>, currentIndex: int)

  /** The class invariant: the cursor is -1 or a valid index. Both fields
      are private and start as `[]` and -1. */
  predicate Valid(h: History) {
    -1 <= h.currentIndex <= |h.entries| - 1
  }

  const NewHistory: History := History([], -1)

  /** The cursor sits on the last entry (or both are empty). */
  predicate AtTail(h: History) {
    h.currentIndex == |h.entries| - 1
  }

  /** `save`: entries after the cursor are discarded (`splice(0, i + 1)`
      keeps the first i + 1), the state is appended, and the cursor moves
      onto it. */
  function Save(h: History, s: EditorState): (r: History)
    requires Valid(h)
    ensures Valid(r) && AtTail(r)
    ensures r.entries == h.entries[..h.currentIndex + 1] + [s]
    ensures AtTail(h) ==> r.entries == h.entries + [s]
  {
    var kept := if h.currentIndex < |h.entries| - 1 then h.entries[..h.currentIndex + 1] else h.entries;
    History(kept + [s], h.currentIndex + 1)
  }

  /** `redo`: when there is an entry after the cursor, the cursor moves onto
      it and it is returned; otherwise null is returned and nothing changes. */
  function Redo(h: History): (r: (History, Option<EditorState>))
    requires Valid(h)
    ensures Valid(r.0)
    ensures r.1.Some? <==> !AtTail(h)
    ensures r.1.Some? ==>
      && r.0.entries == h.entries
      && r.0.currentIndex == h.currentIndex + 1
      && r.1.value == h.entries[r.0.currentIndex]
    ensures r.1.None? ==> r.0 == h
  {
    if h.currentIndex < |h.entries| - 1 then
      var i := h.currentIndex + 1;
      (History(h.entries, i), Some(h.entries[i]))
    else (h, None)
  }

  /** The two operations the class offers. */
  datatype HistoryOp = SaveOp(state: EditorState) | RedoOp

  function Apply(h: History, ops: seq<HistoryOp>): (r: History)
    requires Valid(h)
    ensures Valid(r)
    decreases |ops|
  {
    if |ops| == 0 then h
    else
      var h' := match ops[0]
        case SaveOp(s) => Save(h, s)
        case RedoOp => Redo(h).0;
      Apply(h', ops[1..])
  }

  /** With only `save` and `redo` available the cursor can never leave the
      tail, so every reachable history has nothing to redo. */
  lemma {:induction false} OnlyTailReachable(h: History, ops: seq<HistoryOp>)
    requires Valid(h) && AtTail(h)
    ensures AtTail(Apply(h, ops))
    ensures Redo(Apply(h, ops)).1 == None
    decreases |ops|
  {
    if |ops| > 0 {
      var h' := match ops[0]
        case SaveOp(s) => Save(h, s)
        case RedoOp => Redo(h).0;
      OnlyTailReachable(h', ops[1..]);
    }
  }

  /** From a new history every sequence of saves and redos leaves redo
      returning null. */
  lemma RedoNeverAvailable(ops: seq<HistoryOp>)
    ensures Redo(Apply(NewHistory, ops)).1 == None
  {
    OnlyTailReachable(NewHistory, ops);
  }

  /** Saving n states from a new history records exactly those states, in order. */
  lemma {:induction false} SavesRecordInOrder(h: History, states: seq<EditorState>)
    requires Valid(h) && AtTail(h)
    ensures Apply(h, seq(|states|, i requires 0 <= i < |states| => SaveOp(states[i]))).entries == h.entries + states
    decreases |states|
  {
    var ops := seq(|states|, i requires 0 <= i < |states| => SaveOp(states[i]));
    if |states| == 0 {
      assert h.entries + states == h.entries;
    } else {
      var h' := Save(h, states[0]);
      var rest := states[1..];
      assert ops[1..] == seq(|rest|, i requires 0 <= i < |rest| => SaveOp(rest[i]));
      SavesRecordInOrder(h', rest);
      assert h.entries + [states[0]] + rest == h.entries + states;
    }
  }

  /** The demo: save the initial state, derive an edited copy, save it. */
  lemma {:induction false} DemoScenario()
    ensures var initial := EditorState("console.log('hola mundo)", 2, false);
      var edited := CopyWith(initial, Patch(Some("console.log('Hola mundo');"), Some(3), Some(true)));
      var h := Save(Save(NewHistory, initial), edited);
      && h.entries == [initial, edited]
      && h.currentIndex == 1
      && initial.content == "console.log('hola mundo)"
      && Redo(h).1 == None
  {
  }
}
