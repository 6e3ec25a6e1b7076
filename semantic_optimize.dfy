/**
 * SemanticStringView.swift, second half: `SemanticOptimizedRun.optimize`
 * turns the runs of one line into display entries. Runs that are neither a
 * class nor a protocol are coloured by their role and merged into text
 * groups; a group is closed as soon as it passes 512 characters. A class or
 * protocol run closes the pending group and becomes a navigation entry of its
 * own. A SwiftUI `Text` is modelled as the sequence of its styled pieces.
 */
module SemanticOptimize {
  import opened SemanticTypes
  import opened Common
  import opened Themes
  import RuntimeObjectTypes
  import opened SemanticLines

  /** The tuning parameter: a text group is closed once it is longer than this. */
  const FlushLength := 512

  /** `Text(str).foregroundColor(colors.<role>)`. */
  datatype StyledText = StyledText(text: string, role: ColorRole)

  /** `SemanticOptimizedType`. */
  datatype OptimizedType =
    | TextGroup(pieces: seq<StyledText>)
    | Navigation(target: RuntimeObjectTypes.RuntimeObjectType, title: StyledText)

  /** `SemanticOptimizedRun`. */
  datatype OptimizedRun = OptimizedRun(id: int, kind: OptimizedType)

  /** The colour role `optimize` picks for each semantic type. */
  function RoleOf(t: SemanticType): (r: ColorRole)
    ensures r == DefaultRole <==> t.Other?
    ensures r == NumberRole <==> t == Numeric
    ensures r == ClassRole <==> t == Class
    ensures r == ProtocolRole <==> t == Protocol
  {
    match t
    case Standard => StandardRole
    case Comment => CommentRole
    case Keyword => KeywordRole
    case Variable => VariableRole
    case RecordName => RecordNameRole
    case Class => ClassRole
    case Protocol => ProtocolRole
    case Numeric => NumberRole
    case Other(_) => DefaultRole
  }

  /** Two named semantic types never share a colour role. */
  lemma RoleOfDistinguishesNamedTypes(s: SemanticType, t: SemanticType)
    requires !s.Other? && !t.Other?
    ensures RoleOf(s) == RoleOf(t) <==> s == t
  {
  }

  /** The piece a run is displayed as. */
  function Styled(run: SemanticRun): StyledText {
    StyledText(run.text, RoleOf(run.kind))
  }

  predicate IsNavigation(t: SemanticType) {
    t == Class || t == Protocol
  }

  /** The object a class or protocol run navigates to, named by the run's text. */
  function Target(run: SemanticRun): (r: RuntimeObjectTypes.RuntimeObjectType)
    requires IsNavigation(run.kind)
    ensures r.Name() == run.text
    ensures r.Class? <==> run.kind == Class
  {
    if run.kind == Class then RuntimeObjectTypes.Class(run.text) else RuntimeObjectTypes.Protocol(run.text)
  }

  /** The characters of a sequence of pieces. */
  function TextOf(pieces: seq<StyledText>): string
    decreases |pieces|
  {
    if pieces == [] then ""
    else TextOf(pieces[..|pieces| - 1]) + pieces[|pieces| - 1].text
  }

  /** Every run of the input, styled, in order. */
  function StyledAll(runs: seq<SemanticRun>): (r: seq<StyledText>)
    ensures |r| == |runs|
    decreases |runs|
  {
    if runs == [] then []
    else StyledAll(runs[..|runs| - 1]) + [Styled(runs[|runs| - 1])]
  }

  /** The navigation targets of the input's class and protocol runs, in order. */
  function NavTargets(runs: seq<SemanticRun>): seq<RuntimeObjectTypes.RuntimeObjectType>
    decreases |runs|
  {
    if runs == [] then []
    else
      var last := runs[|runs| - 1];
      NavTargets(runs[..|runs| - 1]) + (if IsNavigation(last.kind) then [Target(last)] else [])
  }

  function PiecesOf(k: OptimizedType): seq<StyledText> {
    match k
    case TextGroup(pieces) => pieces
    case Navigation(_, title) => [title]
  }

  /** Every piece shown by the output, in order. */
  function Pieces(out: seq<OptimizedRun>): seq<StyledText>
    decreases |out|
  {
    if out == [] then []
    else Pieces(out[..|out| - 1]) + PiecesOf(out[|out| - 1].kind)
  }

  /** The navigation targets of the output, in order. */
  function Navigations(out: seq<OptimizedRun>): seq<RuntimeObjectTypes.RuntimeObjectType>
    decreases |out|
  {
    if out == [] then []
    else
      var last := out[|out| - 1].kind;
      Navigations(out[..|out| - 1]) + (if last.Navigation? then [last.target] else [])
  }

  predicate IsNavigationRole(role: ColorRole) {
    role == ClassRole || role == ProtocolRole
  }

  /**
   * A navigation entry's title is coloured as its target's kind and spells
   * its target's name; no piece of a text group has a class or protocol
   * colour.
   */
  predicate EntryPlaced(k: OptimizedType) {
    match k
    case Navigation(target, title) =>
      title.role == (if target.Class? then ClassRole else ProtocolRole) && title.text == target.Name()
    case TextGroup(pieces) =>
      forall j :: 0 <= j < |pieces| ==> !IsNavigationRole(pieces[j].role)
  }

  ghost predicate Placed(out: seq<OptimizedRun>) {
    forall i :: 0 <= i < |out| ==> EntryPlaced(out[i].kind)
  }

  /** The entries are numbered 0, 1, 2, ... in order. */
  ghost predicate Identified(out: seq<OptimizedRun>) {
    forall i :: 0 <= i < |out| ==> out[i].id == i
  }

  /** A text group closed because of its length. */
  ghost predicate Long(k: OptimizedType) {
    k.TextGroup? && |TextOf(k.pieces)| > FlushLength
  }

  /** A text group is never empty and is at most 512 characters before its last piece. */
  ghost predicate GroupBounded(k: OptimizedType) {
    k.TextGroup? ==> k.pieces != [] && |TextOf(k.pieces[..|k.pieces| - 1])| <= FlushLength
  }

  ghost predicate GroupsBounded(out: seq<OptimizedRun>) {
    forall i :: 0 <= i < |out| ==> GroupBounded(out[i].kind)
  }

  /** Two text groups follow each other only when the first was closed for its length. */
  ghost predicate SplitOnlyWhenLong(out: seq<OptimizedRun>) {
    forall i :: 0 <= i < |out| - 1 && out[i].kind.TextGroup? && out[i + 1].kind.TextGroup? ==> Long(out[i].kind)
  }

  function PendingPieces(pending: Option<seq<StyledText>>): seq<StyledText> {
    if pending.Some? then pending.value else []
  }

  /** What `pushRun()` leaves in `ret`: the pending group, if any, closed. */
  function Flushed(out: seq<OptimizedRun>, pending: Option<seq<StyledText>>): (r: seq<OptimizedRun>)
    ensures pending.None? ==> r == out
    ensures pending.Some? ==> |r| == |out| + 1 && r[..|out|] == out && r[|out|] == OptimizedRun(|out|, TextGroup(pending.value))
  {
    if pending.Some? then
      var r := out + [OptimizedRun(|out|, TextGroup(pending.value))];
      assert r[..|out|] == out;
      r
    else out
  }

  /** The output is numbered, its groups bounded, and its groups split only for length. */
  ghost predicate Shaped(out: seq<OptimizedRun>) {
    Identified(out) && GroupsBounded(out) && SplitOnlyWhenLong(out) && Placed(out)
  }

  /** If the output ends with a text group, that group was closed for its length. */
  ghost predicate EndsLong(out: seq<OptimizedRun>) {
    out != [] && out[|out| - 1].kind.TextGroup? ==> Long(out[|out| - 1].kind)
  }

  /**
   * The pending group is absent or non-empty and free of class and protocol
   * colours, `len` counts its characters, and it is not long.
   */
  ghost predicate PendingBounded(pending: Option<seq<StyledText>>, len: int) {
    && (pending.Some? ==> pending.value != [] && EntryPlaced(TextGroup(pending.value)))
    && len == |TextOf(PendingPieces(pending))| && len <= FlushLength
  }

  /** The output and the pending group show exactly the runs of `read`, styled and in order. */
  ghost predicate Shows(out: seq<OptimizedRun>, pending: Option<seq<StyledText>>, read: seq<SemanticRun>) {
    && Pieces(out) + PendingPieces(pending) == StyledAll(read)
    && Navigations(out) == NavTargets(read)
  }

  /** What holds between two runs of the loop of `optimize`. */
  ghost predicate Tracks(out: seq<OptimizedRun>, pending: Option<seq<StyledText>>, len: int, read: seq<SemanticRun>) {
    Shaped(out) && EndsLong(out) && PendingBounded(pending, len) && Shows(out, pending, read)
  }

  lemma TextOfAppend(pieces: seq<StyledText>, piece: StyledText)
    ensures TextOf(pieces + [piece]) == TextOf(pieces) + piece.text
  {
    assert (pieces + [piece])[..|pieces|] == pieces;
  }

  lemma OutputAppend(out: seq<OptimizedRun>, r: OptimizedRun)
    ensures Pieces(out + [r]) == Pieces(out) + PiecesOf(r.kind)
    ensures Navigations(out + [r]) == Navigations(out) + (if r.kind.Navigation? then [r.kind.target] else [])
  {
    assert (out + [r])[..|out|] == out;
  }

  lemma InputAppend(runs: seq<SemanticRun>, run: SemanticRun)
    ensures StyledAll(runs + [run]) == StyledAll(runs) + [Styled(run)]
    ensures NavTargets(runs + [run]) == NavTargets(runs) + (if IsNavigation(run.kind) then [Target(run)] else [])
  {
    assert (runs + [run])[..|runs|] == runs;
  }

  /** Appending a placed entry with the next id, a bounded group, and no short group before a group. */
  lemma AppendShaped(out: seq<OptimizedRun>, r: OptimizedRun)
    requires Shaped(out) && r.id == |out| && GroupBounded(r.kind) && EntryPlaced(r.kind)
    requires r.kind.TextGroup? ==> EndsLong(out)
    ensures Shaped(out + [r])
  {
    var out' := out + [r];
    assert forall i :: 0 <= i < |out| ==> out'[i] == out[i];
  }

  /** A group whose last piece made it long was not long before that piece. */
  lemma GrownGroupBounded(p: seq<StyledText>, piece: StyledText)
    requires |TextOf(p)| <= FlushLength
    ensures GroupBounded(TextGroup(p + [piece]))
  {
    assert (p + [piece])[..|p|] == p;
  }

  /** A pending group that is not long is bounded once closed. */
  lemma PendingGroupBounded(g: seq<StyledText>, len: int)
    requires PendingBounded(Some(g), len)
    ensures GroupBounded(TextGroup(g))
  {
    var n := |g| - 1;
    assert g == g[..n] + [g[n]];
    TextOfAppend(g[..n], g[n]);
  }

  /** Closing the pending group keeps the output shaped and showing the runs read. */
  lemma FlushKeepsShape(out: seq<OptimizedRun>, pending: Option<seq<StyledText>>, len: int, read: seq<SemanticRun>)
    requires Tracks(out, pending, len, read)
    ensures Shaped(Flushed(out, pending)) && Shows(Flushed(out, pending), None, read)
  {
    if pending.Some? {
      var r := OptimizedRun(|out|, TextGroup(pending.value));
      OutputAppend(out, r);
      PendingGroupBounded(pending.value, len);
      AppendShaped(out, r);
    }
  }

  /** `pushText`: the run joins the pending group, which is closed once it passes 512 characters. */
  lemma TextStepTracks(out: seq<OptimizedRun>, pending: Option<seq<StyledText>>, len: int,
                       read: seq<SemanticRun>, run: SemanticRun)
    requires Tracks(out, pending, len, read)
    requires !IsNavigation(run.kind)
    ensures var p := PendingPieces(pending) + [Styled(run)];
            var len' := len + |run.text|;
            && (len' > FlushLength ==> Tracks(Flushed(out, Some(p)), None, 0, read + [run]))
            && (len' <= FlushLength ==> Tracks(out, Some(p), len', read + [run]))
  {
    if len + |run.text| > FlushLength {
      TextStepCloses(out, pending, len, read, run);
    } else {
      TextStepPends(out, pending, len, read, run);
    }
  }

  /** A run that is not a class or protocol keeps the pending group free of their colours. */
  lemma GrownPlaced(pending: seq<StyledText>, run: SemanticRun)
    requires EntryPlaced(TextGroup(pending)) && !IsNavigation(run.kind)
    ensures EntryPlaced(TextGroup(pending + [Styled(run)]))
  {
    var p := pending + [Styled(run)];
    assert !IsNavigationRole(RoleOf(run.kind));
    assert forall j :: 0 <= j < |p| - 1 ==> p[j] == pending[j];
  }

  lemma TextStepCloses(out: seq<OptimizedRun>, pending: Option<seq<StyledText>>, len: int,
                       read: seq<SemanticRun>, run: SemanticRun)
    requires Tracks(out, pending, len, read)
    requires !IsNavigation(run.kind) && len + |run.text| > FlushLength
    ensures Tracks(Flushed(out, Some(PendingPieces(pending) + [Styled(run)])), None, 0, read + [run])
  {
    var p := PendingPieces(pending) + [Styled(run)];
    TextStepShows(out, pending, read, run);
    GrownPlaced(PendingPieces(pending), run);
    GrownGroupBounded(PendingPieces(pending), Styled(run));
    AppendShaped(out, OptimizedRun(|out|, TextGroup(p)));
  }

  lemma TextStepPends(out: seq<OptimizedRun>, pending: Option<seq<StyledText>>, len: int,
                      read: seq<SemanticRun>, run: SemanticRun)
    requires Tracks(out, pending, len, read)
    requires !IsNavigation(run.kind) && len + |run.text| <= FlushLength
    ensures Tracks(out, Some(PendingPieces(pending) + [Styled(run)]), len + |run.text|, read + [run])
  {
    TextOfAppend(PendingPieces(pending), Styled(run));
    TextStepShows(out, pending, read, run);
    GrownPlaced(PendingPieces(pending), run);
  }

  lemma TextStepShows(out: seq<OptimizedRun>, pending: Option<seq<StyledText>>, read: seq<SemanticRun>, run: SemanticRun)
    requires Shows(out, pending, read)
    requires !IsNavigation(run.kind)
    ensures var p := PendingPieces(pending) + [Styled(run)];
            Shows(out, Some(p), read + [run]) && Shows(Flushed(out, Some(p)), None, read + [run])
  {
    var p := PendingPieces(pending) + [Styled(run)];
    var r := OptimizedRun(|out|, TextGroup(p));
    InputAppend(read, run);
    OutputAppend(out, r);
    assert Flushed(out, Some(p)) == out + [r];
    assert Pieces(out) + p == StyledAll(read + [run]);
  }

  /** `pushNavigation`: the pending group is closed and the run becomes a navigation entry. */
  lemma NavigationStepTracks(out: seq<OptimizedRun>, pending: Option<seq<StyledText>>, len: int,
                             read: seq<SemanticRun>, run: SemanticRun)
    requires Tracks(out, pending, len, read)
    requires IsNavigation(run.kind)
    ensures var flushed := Flushed(out, pending);
            Tracks(flushed + [OptimizedRun(|flushed|, Navigation(Target(run), Styled(run)))], None, 0, read + [run])
  {
    FlushKeepsShape(out, pending, len, read);
    var flushed := Flushed(out, pending);
    var r := OptimizedRun(|flushed|, Navigation(Target(run), Styled(run)));
    OutputAppend(flushed, r);
    InputAppend(read, run);
    AppendShaped(flushed, r);
  }

  /** The characters shown are the characters of the styled runs. */
  lemma {:induction false} StyledAllText(runs: seq<SemanticRun>)
    ensures TextOf(StyledAll(runs)) == RunsText(runs)
    decreases |runs|
  {
    if runs != [] {
      var front := runs[..|runs| - 1];
      StyledAllText(front);
      TextOfAppend(StyledAll(front), Styled(runs[|runs| - 1]));
    }
  }

  /** The variables of `optimize` other than the runs read. */
  datatype State = State(out: seq<OptimizedRun>, pending: Option<seq<StyledText>>, len: int)

  /**
   * One run through the switch of `optimize`: a class or protocol run closes
   * the pending group and is appended as a navigation entry; any other run
   * joins the pending group, which is closed once it passes 512 characters.
   */
  function Step(st: State, run: SemanticRun): State {
    if IsNavigation(run.kind) then
      var flushed := Flushed(st.out, st.pending);
      State(flushed + [OptimizedRun(|flushed|, Navigation(Target(run), Styled(run)))], None, 0)
    else
      var p := PendingPieces(st.pending) + [Styled(run)];
      var len := st.len + |run.text|;
      if len > FlushLength then State(Flushed(st.out, Some(p)), None, 0) else State(st.out, Some(p), len)
  }

  /** The variables of `optimize` after the loop has consumed `runs`, starting from no output. */
  function Replay(runs: seq<SemanticRun>): State
    decreases |runs|
  {
    if runs == [] then State([], None, 0)
    else Step(Replay(runs[..|runs| - 1]), runs[|runs| - 1])
  }

  /** Every step of the loop keeps the output shaped, placed and showing the runs consumed. */
  lemma {:induction false} ReplayTracks(runs: seq<SemanticRun>)
    ensures var st := Replay(runs);
      Tracks(st.out, st.pending, st.len, runs)
    decreases |runs|
  {
    if runs == [] {
      assert Pieces([]) == [] && StyledAll([]) == [];
    } else {
      ReplayTracks(runs[..|runs| - 1]);
      StepTracks(runs);
    }
  }

  /** The last step of the loop keeps the invariant. */
  lemma StepTracks(runs: seq<SemanticRun>)
    requires runs != []
    requires var st := Replay(runs[..|runs| - 1]);
      Tracks(st.out, st.pending, st.len, runs[..|runs| - 1])
    ensures var st := Replay(runs);
      Tracks(st.out, st.pending, st.len, runs)
  {
    var front := runs[..|runs| - 1];
    var run := runs[|runs| - 1];
    var st := Replay(front);
    var next := Step(st, run);
    assert Replay(runs) == next;
    StepKeepsTracks(st, front, run);
    FrontAndLast(runs);
    TracksOn(next, front + [run], runs);
  }

  /** One run through the switch keeps the invariant. */
  lemma StepKeepsTracks(st: State, read: seq<SemanticRun>, run: SemanticRun)
    requires Tracks(st.out, st.pending, st.len, read)
    ensures var next := Step(st, run);
      Tracks(next.out, next.pending, next.len, read + [run])
  {
    if IsNavigation(run.kind) {
      NavigationStepTracks(st.out, st.pending, st.len, read, run);
    } else if st.len + |run.text| > FlushLength {
      TextStepCloses(st.out, st.pending, st.len, read, run);
    } else {
      TextStepPends(st.out, st.pending, st.len, read, run);
    }
  }

  lemma FrontAndLast(runs: seq<SemanticRun>)
    requires runs != []
    ensures runs[..|runs| - 1] + [runs[|runs| - 1]] == runs
  {
  }

  lemma TracksOn(st: State, read: seq<SemanticRun>, runs: seq<SemanticRun>)
    requires read == runs && Tracks(st.out, st.pending, st.len, read)
    ensures Tracks(st.out, st.pending, st.len, runs)
  {
  }

  /** The last `pushRun()` leaves an output that shows all runs and has the shape `optimize` promises. */
  lemma FinalFlush(runs: seq<SemanticRun>)
    ensures var st := Replay(runs);
      var r := Flushed(st.out, st.pending);
      && Identified(r) && GroupsBounded(r) && SplitOnlyWhenLong(r) && Placed(r)
      && Pieces(r) == StyledAll(runs) && TextOf(Pieces(r)) == RunsText(runs)
      && Navigations(r) == NavTargets(runs)
  {
    var st := Replay(runs);
    ReplayTracks(runs);
    FlushKeepsShape(st.out, st.pending, st.len, runs);
    StyledAllText(runs);
  }

  /** The variables `optimize` shares with its nested `pushRun`, `pushText` and `pushNavigation`. */
  class Optimizer {
    var ret: seq<OptimizedRun>
    var currentText: Option<seq<StyledText>>
    var currentLength: int

    function Current(): State
      reads this
    {
      State(ret, currentText, currentLength)
    }

    constructor ()
      ensures ret == [] && currentText == None && currentLength == 0
    {
      ret := [];
      currentText := None;
      currentLength := 0;
    }

    /** `pushRun()`: closes the pending group, if there is one. */
    method PushRun()
      modifies this
      ensures ret == Flushed(old(ret), old(currentText))
      ensures currentText == None
      ensures currentLength == if old(currentText).Some? then 0 else old(currentLength)
    {
      if currentText.Some? {
        ret := ret + [OptimizedRun(|ret|, TextGroup(currentText.value))];
        currentText := None;
        currentLength := 0;
      }
    }

    /** `pushText`: the run, coloured by its role, joins the pending group, which is closed once it passes 512 characters. */
    method PushText(content: SemanticRun)
      requires !IsNavigation(content.kind)
      modifies this
      ensures var p := PendingPieces(old(currentText)) + [Styled(content)];
              var len := old(currentLength) + |content.text|;
              if len > FlushLength then
                ret == Flushed(old(ret), Some(p)) && currentText == None && currentLength == 0
              else
                ret == old(ret) && currentText == Some(p) && currentLength == len
    {
      var str := content.text;
      var text := Styled(content);
      if currentText.Some? {
        currentText := Some(currentText.value + [text]);
      } else {
        assert PendingPieces(currentText) + [text] == [text];
        currentText := Some([text]);
      }
      currentLength := currentLength + |str|;
      if currentLength > FlushLength {
        PushRun();
      }
    }

    /** `pushNavigation`: closes the pending group, then adds the navigation entry. */
    method PushNavigation(content: SemanticRun, objectType: RuntimeObjectTypes.RuntimeObjectType)
      modifies this
      ensures var flushed := Flushed(old(ret), old(currentText));
              ret == flushed + [OptimizedRun(|flushed|, Navigation(objectType, Styled(content)))]
      ensures currentText == None && currentLength == 0
    {
      PushRun();
      currentLength := 0;
      var text := Styled(content);
      ret := ret + [OptimizedRun(|ret|, Navigation(objectType, text))];
    }

    /**
     * The body of the loop of `optimize` for one run: the switch on its type,
     * whose colour choice is `RoleOf`. A class or protocol run closes the
     * pending group and becomes a navigation entry; any other run joins the
     * pending group.
     */
    method Consume(content: SemanticRun)
      modifies this
      ensures Current() == Step(old(Current()), content)
    {
      if content.kind == Class {
        PushNavigation(content, RuntimeObjectTypes.Class(content.text));
      } else if content.kind == Protocol {
        PushNavigation(content, RuntimeObjectTypes.Protocol(content.text));
      } else {
        PushText(content);
      }
    }
  }

  /**
   * `SemanticOptimizedRun.optimize(lineContent:)`: the entries are numbered
   * in order and show every run once and in order. A piece with a class or
   * protocol colour is exactly a navigation entry's title, so each class and
   * protocol run is its own navigation entry, named by its text, and every
   * other run is in a text group. A text group is split from the next one
   * only after it passed 512 characters.
   */
  method Optimize(lineContent: seq<SemanticRun>) returns (ret: seq<OptimizedRun>)
    ensures Identified(ret)
    ensures Pieces(ret) == StyledAll(lineContent)
    ensures TextOf(Pieces(ret)) == RunsText(lineContent)
    ensures Navigations(ret) == NavTargets(lineContent)
    ensures GroupsBounded(ret)
    ensures SplitOnlyWhenLong(ret)
    ensures Placed(ret)
  {
    var o := new Optimizer();
    for i := 0 to |lineContent|
      invariant o.Current() == Replay(lineContent[..i])
    {
      o.Consume(lineContent[i]);
      assert lineContent[..i + 1][..i] == lineContent[..i];
    }
    assert lineContent[..|lineContent|] == lineContent;
    FinalFlush(lineContent);
    o.PushRun();
    ret := o.ret;
  }
}
