/**
 * The data shape both story machines share: a story is a list of scenes, each
 * scene a list of dialogue lines, and a position is a (scene, line) pair of
 * indices into it. Also the one-line stepping rule that `nextScene` /
 * `previousScene` (script.js) and `broadcastNext` / `broadcastPrevious`
 * (orchestrator.js) all follow, and the flat "how many lines come before this
 * one" index the orchestrator computes.
 */
module StoryModel {
  import opened Wrappers

  /** An uploaded file embedded in a line; `autoplay` is only ever set on audio. */
  datatype MediaAsset = MediaAsset(data: string, fileName: string, autoplay: Option<bool>, timestamp: int)

  /** A line's `media` object: either slot may be missing. */
  datatype Media = Media(image: Option<MediaAsset>, audio: Option<MediaAsset>)

  /** One line of dialogue; the viewer's lines carry no `media` at all. */
  datatype DialogueLine = DialogueLine(speaker: string, text: string, media: Option<Media>)

  datatype Scene = Scene(title: string, background: string, dialogue: seq<DialogueLine>)

  /** `(currentScene, currentDialogue)`; plain integers, because nothing in the
      orchestrator keeps them in range. */
  datatype Position = Position(scene: int, line: int)

  /** The shape every authored story has: at least one scene, no empty scene. */
  predicate WellFormed(scenes: seq<Scene>) {
    |scenes| > 0 && forall i :: 0 <= i < |scenes| ==> |scenes[i].dialogue| > 0
  }

  /** `p` names an existing line. */
  predicate ValidPosition(scenes: seq<Scene>, p: Position) {
    0 <= p.scene < |scenes| && 0 <= p.line < |scenes[p.scene].dialogue|
  }

  predicate AtStart(p: Position) {
    p.scene == 0 && p.line == 0
  }

  /** The last line of the last scene. */
  predicate AtEnd(scenes: seq<Scene>, p: Position)
    requires |scenes| > 0
  {
    p.scene == |scenes| - 1 && p.line == |scenes[|scenes| - 1].dialogue| - 1
  }

  /** The line at a valid position. */
  function LineAt(scenes: seq<Scene>, p: Position): DialogueLine
    requires ValidPosition(scenes, p)
  {
    scenes[p.scene].dialogue[p.line]
  }

  // ---------------------------------------------------------------------------
  // Counting lines
  // ---------------------------------------------------------------------------

  /** Number of lines in all scenes, summed left to right as the `reduce` in
      `getTotalDialogueCount` does. */
  function TotalLines(scenes: seq<Scene>): (total: int)
    ensures total >= 0
    ensures WellFormed(scenes) ==> total >= |scenes|
  {
    if |scenes| == 0 then 0
    else
      var init := scenes[..|scenes| - 1];
      assert WellFormed(scenes) && |init| > 0 ==> WellFormed(init) by {
        if WellFormed(scenes) && |init| > 0 {
          forall i | 0 <= i < |init| ensures |init[i].dialogue| > 0 {
            assert init[i] == scenes[i];
          }
        }
      }
      TotalLines(init) + |scenes[|scenes| - 1].dialogue|
  }

  /** Number of lines in the scenes before scene `k`; a `k` at or below zero
      counts none, as the `for` loop in `getCurrentPosition` runs no round then. */
  function LinesBefore(scenes: seq<Scene>, k: int): (n: int)
    requires k <= |scenes|
    ensures n >= 0
  {
    if k <= 0 then 0 else LinesBefore(scenes, k - 1) + |scenes[k - 1].dialogue|
  }

  /** The flat index of a position: lines before its scene plus its line index. */
  function FlatIndex(scenes: seq<Scene>, p: Position): int
    requires p.scene <= |scenes|
  {
    LinesBefore(scenes, p.scene) + p.line
  }

  /** Counting the lines before scene `k` is the same as totalling the first `k` scenes. */
  lemma {:induction false} LinesBeforeIsPrefixTotal(scenes: seq<Scene>, k: nat)
    requires k <= |scenes|
    ensures LinesBefore(scenes, k) == TotalLines(scenes[..k])
  {
    if k > 0 {
      LinesBeforeIsPrefixTotal(scenes, k - 1);
      assert scenes[..k][..k - 1] == scenes[..k - 1];
    }
  }

  /** All lines of all scenes are "before" the end of the story. */
  lemma TotalIsLinesBeforeEnd(scenes: seq<Scene>)
    ensures TotalLines(scenes) == LinesBefore(scenes, |scenes|)
  {
    LinesBeforeIsPrefixTotal(scenes, |scenes|);
    assert scenes[..|scenes|] == scenes;
  }

  /** Counting more scenes never yields fewer lines; a scene's own lines fit between. */
  lemma {:induction false} LinesBeforeMonotone(scenes: seq<Scene>, j: int, k: int)
    requires 0 <= j < k <= |scenes|
    ensures LinesBefore(scenes, j) + |scenes[j].dialogue| <= LinesBefore(scenes, k)
  {
    if k > j + 1 {
      LinesBeforeMonotone(scenes, j, k - 1);
    }
  }

  /** A valid position's flat index lies in [0, TotalLines): it numbers an actual line. */
  lemma FlatIndexInRange(scenes: seq<Scene>, p: Position)
    requires ValidPosition(scenes, p)
    ensures 0 <= FlatIndex(scenes, p) < TotalLines(scenes)
  {
    LinesBeforeMonotone(scenes, p.scene, |scenes|);
    TotalIsLinesBeforeEnd(scenes);
  }

  /** Distinct lines have distinct flat indices. */
  lemma FlatIndexInjective(scenes: seq<Scene>, p: Position, q: Position)
    requires ValidPosition(scenes, p) && ValidPosition(scenes, q)
    requires FlatIndex(scenes, p) == FlatIndex(scenes, q)
    ensures p == q
  {
    if p.scene < q.scene {
      LinesBeforeMonotone(scenes, p.scene, q.scene);
    } else if q.scene < p.scene {
      LinesBeforeMonotone(scenes, q.scene, p.scene);
    }
  }

  /** The last line of the story has flat index TotalLines - 1. */
  lemma EndIsLastFlatIndex(scenes: seq<Scene>)
    requires WellFormed(scenes)
    ensures FlatIndex(scenes, Position(|scenes| - 1, |scenes[|scenes| - 1].dialogue| - 1)) == TotalLines(scenes) - 1
  {
    TotalIsLinesBeforeEnd(scenes);
  }

  // ---------------------------------------------------------------------------
  // Stepping one line
  // ---------------------------------------------------------------------------

  /** The outcome of a step: stay put at a boundary, or move (and say whether a
      scene boundary was crossed). */
  datatype Step = Stay | Move(to: Position, crossed: bool)

  /**
   * One line forward: the next line of the scene, else line 0 of the next scene
   * (crossing a scene boundary), else stay at the very end without wrapping.
   */
  function StepForward(scenes: seq<Scene>, p: Position): (s: Step)
    requires WellFormed(scenes) && ValidPosition(scenes, p)
    ensures s.Stay? <==> AtEnd(scenes, p)
    ensures s.Move? ==> ValidPosition(scenes, s.to)
    ensures s.Move? ==> FlatIndex(scenes, s.to) == FlatIndex(scenes, p) + 1
    ensures s.Move? ==> (s.crossed <==> s.to.scene != p.scene)
  {
    if p.line < |scenes[p.scene].dialogue| - 1 then Move(Position(p.scene, p.line + 1), false)
    else if p.scene < |scenes| - 1 then Move(Position(p.scene + 1, 0), true)
    else Stay
  }

  /**
   * One line back: the previous line of the scene, else the LAST line of the
   * previous scene (crossing a scene boundary), else stay at the very start.
   */
  function StepBackward(scenes: seq<Scene>, p: Position): (s: Step)
    requires WellFormed(scenes) && ValidPosition(scenes, p)
    ensures s.Stay? <==> AtStart(p)
    ensures s.Move? ==> ValidPosition(scenes, s.to)
    ensures s.Move? ==> FlatIndex(scenes, s.to) == FlatIndex(scenes, p) - 1
    ensures s.Move? ==> (s.crossed <==> s.to.scene != p.scene)
  {
    if p.line > 0 then Move(Position(p.scene, p.line - 1), false)
    else if p.scene > 0 then Move(Position(p.scene - 1, |scenes[p.scene - 1].dialogue| - 1), true)
    else Stay
  }

  /** A step back undoes a step forward, crossing the same boundary. */
  lemma ForwardThenBackward(scenes: seq<Scene>, p: Position)
    requires WellFormed(scenes) && ValidPosition(scenes, p) && !AtEnd(scenes, p)
    ensures StepBackward(scenes, StepForward(scenes, p).to) == Move(p, StepForward(scenes, p).crossed)
  {
    var q := StepForward(scenes, p).to;
    var b := StepBackward(scenes, q);
    FlatIndexInjective(scenes, b.to, p);
  }

  /** A step forward undoes a step back, crossing the same boundary. */
  lemma BackwardThenForward(scenes: seq<Scene>, p: Position)
    requires WellFormed(scenes) && ValidPosition(scenes, p) && !AtStart(p)
    ensures StepForward(scenes, StepBackward(scenes, p).to) == Move(p, StepBackward(scenes, p).crossed)
  {
    var q := StepBackward(scenes, p).to;
    var f := StepForward(scenes, q);
    FlatIndexInjective(scenes, f.to, p);
  }

  /** The position after `n` presses of Next from `p`, ignoring the cooldown;
      presses at the end of the story leave it there. */
  function ForwardSteps(scenes: seq<Scene>, p: Position, n: nat): (q: Position)
    requires WellFormed(scenes) && ValidPosition(scenes, p)
    ensures ValidPosition(scenes, q)
    decreases n
  {
    if n == 0 then p
    else match StepForward(scenes, p)
      case Stay => p
      case Move(to, _) => ForwardSteps(scenes, to, n - 1)
  }

  /** Before the end, every press of Next advances the flat index by exactly one. */
  lemma {:induction false} ForwardStepsCount(scenes: seq<Scene>, p: Position, n: nat)
    requires WellFormed(scenes) && ValidPosition(scenes, p)
    requires FlatIndex(scenes, p) + n < TotalLines(scenes)
    ensures FlatIndex(scenes, ForwardSteps(scenes, p, n)) == FlatIndex(scenes, p) + n
    decreases n
  {
    if n > 0 {
      EndIsLastFlatIndex(scenes);
      assert !AtEnd(scenes, p);
      ForwardStepsCount(scenes, StepForward(scenes, p).to, n - 1);
    }
  }

  /** From the first line, TotalLines - 1 presses of Next reach the last line,
      and further presses stay there. */
  lemma WalkReachesEnd(scenes: seq<Scene>)
    requires WellFormed(scenes)
    ensures AtEnd(scenes, ForwardSteps(scenes, Position(0, 0), TotalLines(scenes) - 1))
    ensures StepForward(scenes, ForwardSteps(scenes, Position(0, 0), TotalLines(scenes) - 1)).Stay?
  {
    var last := Position(|scenes| - 1, |scenes[|scenes| - 1].dialogue| - 1);
    ForwardStepsCount(scenes, Position(0, 0), TotalLines(scenes) - 1);
    EndIsLastFlatIndex(scenes);
    FlatIndexInjective(scenes, ForwardSteps(scenes, Position(0, 0), TotalLines(scenes) - 1), last);
  }

  // ---------------------------------------------------------------------------
  // Replacing one line in place
  // ---------------------------------------------------------------------------

  /**
   * The story with the line at `p` replaced by `line`: the same scenes with the
   * same titles, backgrounds and line counts, every other line as it was.
   */
  function ReplaceLine(scenes: seq<Scene>, p: Position, line: DialogueLine): (r: seq<Scene>)
    requires ValidPosition(scenes, p)
    ensures |r| == |scenes|
    ensures forall i :: 0 <= i < |r| ==>
              r[i].title == scenes[i].title && r[i].background == scenes[i].background
              && |r[i].dialogue| == |scenes[i].dialogue|
    ensures forall i, j :: 0 <= i < |r| && 0 <= j < |r[i].dialogue| ==>
              r[i].dialogue[j] == if i == p.scene && j == p.line then line else scenes[i].dialogue[j]
    ensures WellFormed(scenes) ==> WellFormed(r)
  {
    scenes[p.scene := scenes[p.scene].(dialogue := scenes[p.scene].dialogue[p.line := line])]
  }
}
