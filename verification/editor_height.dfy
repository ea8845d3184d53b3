/** The `ApiV2Example` component's own state: the editor height kept with
    `useState(170)` and updated by the content-change handler. */
module ExampleEditor {

  /** The initial height given to `useState`. */
  const InitialHeight: real := 170.0

  /** One content change: the handler raises the height to the reported
      content height when that exceeds `captured`, the value of `height`
      the handler closed over. */
  function AfterChange(captured: real, height: real, reported: real): (r: real)
    ensures r == height || r == reported
    ensures r != height ==> r > captured
    ensures reported > captured ==> r == reported
  {
    if reported > captured then reported else height
  }

  /** The height after the given content-height reports, in order, for the
      handler actually installed: it is memoised with no dependencies, so
      it always compares with the initial 170, never with the current height. */
  function HeightAfter(reports: seq<real>): (h: real)
    ensures h == InitialHeight || h in reports
    decreases |reports|
  {
    if reports == [] then InitialHeight
    else AfterChange(InitialHeight, HeightAfter(reports[..|reports| - 1]), reports[|reports| - 1])
  }

  /** The height never falls below its initial value. */
  lemma {:induction false} HeightAfterAtLeastInitial(reports: seq<real>)
    ensures HeightAfter(reports) >= InitialHeight
  {
    if reports != [] {
      HeightAfterAtLeastInitial(reports[..|reports| - 1]);
    }
  }

  /** The height is the last reported content height above 170, or 170 if
      no report exceeded it: earlier, larger reports are forgotten. */
  lemma {:induction false} HeightAfterIsLastRaise(reports: seq<real>)
    ensures (forall j | 0 <= j < |reports| :: reports[j] <= InitialHeight) ==>
      HeightAfter(reports) == InitialHeight
    ensures forall i | 0 <= i < |reports| && reports[i] > InitialHeight &&
        (forall j | i < j < |reports| :: reports[j] <= InitialHeight) ::
      HeightAfter(reports) == reports[i]
  {
    if reports != [] {
      var n := |reports| - 1;
      var prefix := reports[..n];
      HeightAfterIsLastRaise(prefix);
      forall i | 0 <= i < |reports| && reports[i] > InitialHeight &&
          (forall j | i < j < |reports| :: reports[j] <= InitialHeight)
        ensures HeightAfter(reports) == reports[i]
      {
        if i < n {
          assert prefix[i] == reports[i];
          assert forall j | i < j < |prefix| :: prefix[j] == reports[j];
        }
      }
      if forall j | 0 <= j < |reports| :: reports[j] <= InitialHeight {
        assert forall j | 0 <= j < |prefix| :: prefix[j] == reports[j];
      }
    }
  }

  /** Unlike a grow-only policy, the height can shrink: reports 100, 250
      and 180 end at 180, below the 250 reached before. */
  lemma HeightCanShrink()
    ensures HeightAfter([100.0, 250.0]) == 250.0
    ensures HeightAfter([100.0, 250.0, 180.0]) == 180.0
  {
  }

  /** The component instance: its `height` state, whether `onMount` has run
      (stored the editor in `editorRef` and subscribed the handler), and the
      value the memoised handler captured. */
  class ApiV2Example {
    var height: real
    var editorMounted: bool
    const capturedHeight: real
    /** Content heights reported to the handler so far. */
    ghost var reports: seq<real>

    ghost predicate Valid()
      reads this
    {
      capturedHeight == InitialHeight && height == HeightAfter(reports)
    }

    /** First render: `useState(170)`, the editor not yet mounted. */
    constructor ()
      ensures Valid()
      ensures height == InitialHeight && !editorMounted && reports == []
    {
      height := InitialHeight;
      editorMounted := false;
      capturedHeight := InitialHeight;
      reports := [];
    }

    /** `onMount`: keep the editor handle and subscribe the change handler. */
    method OnMount()
      requires Valid()
      modifies this
      ensures Valid()
      ensures editorMounted
      ensures height == old(height) && reports == old(reports)
    {
      editorMounted := true;
    }

    /** `handleEditorChange`, called with the editor's current content
        height; events reach it only once `onMount` has subscribed it. */
    method OnContentChange(contentHeight: real)
      requires Valid() && editorMounted
      modifies this
      ensures Valid() && editorMounted
      ensures reports == old(reports) + [contentHeight]
      ensures height == if contentHeight > InitialHeight then contentHeight else old(height)
      ensures height >= InitialHeight
    {
      if contentHeight > capturedHeight {
        height := contentHeight;
      }
      reports := reports + [contentHeight];
      assert reports[..|reports| - 1] == old(reports);
      HeightAfterAtLeastInitial(reports);
    }
  }
}
