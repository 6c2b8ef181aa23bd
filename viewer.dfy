/**
 * The story viewer of script.js: one reader's position in a fixed story, the
 * two-second lock after a scene change, the player's name, and the
 * "scene advanced" messages it exchanges with other viewers.
 *
 * The network is reduced to a connection flag and a list of published
 * payloads; the cooldown timer to an explicit `EndCooldown` call; `Date.now()`
 * to a `now` argument.
 */
module Viewer {
  import opened Wrappers
  import opened Strings
  import opened StoryModel

  const DefaultPlayerName: string := "Brave Veteran"

  /** The placeholder a line's text may hold for the player's name. */
  const NameToken: string := "{PLAYER_NAME}"

  /** The payload on `nerfwar/scene/advanced`, the one topic the viewer
      publishes to and listens on: a one-based scene number and who moved. An
      inbound payload may lack `player`. */
  datatype SceneAdvanced = SceneAdvanced(sceneId: int, player: Option<string>, timestamp: int)

  // ---------------------------------------------------------------------------
  // Personalisation: `text.replace('{PLAYER_NAME}', playerName)`
  // ---------------------------------------------------------------------------

  predicate OccursAt(text: string, pat: string, k: int) {
    0 <= k && k + |pat| <= |text| && text[k..k + |pat|] == pat
  }

  /** The first index at or after `from` where `pat` occurs in `text`. */
  function IndexOf(text: string, pat: string, from: nat): (r: Option<nat>)
    decreases |text| - from
    ensures r.Some? ==> from <= r.value && OccursAt(text, pat, r.value)
    ensures forall k :: from <= k && (r.None? || k < r.value) ==> !OccursAt(text, pat, k)
  {
    if from + |pat| > |text| then None
    else if text[from..from + |pat|] == pat then Some(from)
    else IndexOf(text, pat, from + 1)
  }

  /**
   * The replacement string as JavaScript's `String.prototype.replace` reads it
   * when the pattern is a string (no capture groups): `$$` stands for `$`,
   * `$&` for the matched text, `` $` `` for the text before the match, `$'` for
   * the text after it; every other character, including other `$` forms, is
   * itself.
   */
  function Expand(repl: string, matched: string, before: string, after: string): (r: string)
    ensures '$' !in repl ==> r == repl
  {
    if |repl| >= 2 && repl[0] == '$' && repl[1] == '$' then "$" + Expand(repl[2..], matched, before, after)
    else if |repl| >= 2 && repl[0] == '$' && repl[1] == '&' then matched + Expand(repl[2..], matched, before, after)
    else if |repl| >= 2 && repl[0] == '$' && repl[1] == '`' then before + Expand(repl[2..], matched, before, after)
    else if |repl| >= 2 && repl[0] == '$' && repl[1] == '\'' then after + Expand(repl[2..], matched, before, after)
    else if repl == [] then []
    else [repl[0]] + Expand(repl[1..], matched, before, after)
  }

  /**
   * The text shown for a line, as script.js computes it: the FIRST occurrence
   * of `{PLAYER_NAME}` is replaced, with the name read as a JavaScript
   * replacement pattern; text without the token is returned unchanged.
   */
  function Personalize(text: string, name: string): (r: string)
    ensures IndexOf(text, NameToken, 0).None? ==> r == text
  {
    match IndexOf(text, NameToken, 0)
    case None => text
    case Some(i) =>
      var before, after := text[..i], text[i + |NameToken|..];
      before + Expand(name, NameToken, before, after) + after
  }

  /** A name without `$` is inserted verbatim in place of the first token, and
      the text around it, later tokens included, is kept. */
  lemma PersonalizeReplacesFirstToken(text: string, name: string, i: nat)
    requires '$' !in name
    requires OccursAt(text, NameToken, i)
    requires forall k :: 0 <= k < i ==> !OccursAt(text, NameToken, k)
    ensures Personalize(text, name) == text[..i] + name + text[i + |NameToken|..]
  {
    assert OccursAt(text, NameToken, i);
  }

  /** A player who calls themself `$&` sees the bare token instead of their name. */
  lemma DollarNameKeepsToken()
    ensures Personalize("Hi {PLAYER_NAME}!", "$&") == "Hi {PLAYER_NAME}!"
  {
    var text := "Hi {PLAYER_NAME}!";
    GreetingTokenAtThree();
    var before, after := text[..3], text[16..];
    assert Expand("$&", NameToken, before, after) == NameToken;
    assert before + NameToken + after == text;
  }

  /** The token in the sample greeting is found at index 3. */
  lemma GreetingTokenAtThree()
    ensures IndexOf("Hi {PLAYER_NAME}!", NameToken, 0) == Some(3)
  {
    var text := "Hi {PLAYER_NAME}!";
    assert text[0..13][0] != NameToken[0];
    assert text[1..14][0] != NameToken[0];
    assert text[2..15][0] != NameToken[0];
    assert text[3..16] == NameToken;
  }

  /**
   * The intended personalisation: the first token replaced by the name exactly
   * as typed, whatever characters it holds.
   */
  function PersonalizeLiteral(text: string, name: string): (r: string)
    ensures IndexOf(text, NameToken, 0).None? ==> r == text
    ensures IndexOf(text, NameToken, 0).Some? ==>
              var i := IndexOf(text, NameToken, 0).value;
              |r| == |text| - |NameToken| + |name| && r[..i] == text[..i] && r[i..i + |name|] == name
              && r[i + |name|..] == text[i + |NameToken|..]
  {
    match IndexOf(text, NameToken, 0)
    case None => text
    case Some(i) => text[..i] + name + text[i + |NameToken|..]
  }

  /** The two agree whenever the name has no `$`, so the literal reading only
      differs from script.js on names that JavaScript would expand. */
  lemma PersonalizeLiteralAgrees(text: string, name: string)
    requires '$' !in name
    ensures PersonalizeLiteral(text, name) == Personalize(text, name)
  {
  }

  // ---------------------------------------------------------------------------
  // Name prompt, navigation buttons, inbound clamp
  // ---------------------------------------------------------------------------

  /** `playerNameInput.value.trim() || "Brave Veteran"`: never empty, never
      padded with whitespace, and the default exactly when nothing but
      whitespace was typed. */
  function PlayerNameFrom(input: string): (name: string)
    ensures Unpadded(name)
    ensures Trim(input) == [] ==> name == DefaultPlayerName
    ensures Trim(input) != [] ==> name == Trim(input)
  {
    var t := Trim(input);
    if t == [] then
      DefaultNameUnpadded();
      DefaultPlayerName
    else t
  }

  lemma DefaultNameUnpadded()
    ensures Unpadded(DefaultPlayerName)
  {
    assert DefaultPlayerName[0] == 'B' && DefaultPlayerName[|DefaultPlayerName| - 1] == 'n';
  }

  /** "Previous" is disabled at the very first line, exactly where a step back stays put. */
  function PrevButtonDisabled(scenes: seq<Scene>, p: Position): (disabled: bool)
    ensures WellFormed(scenes) && ValidPosition(scenes, p) ==>
              (disabled <==> StepBackward(scenes, p).Stay?)
  {
    p.scene == 0 && p.line == 0
  }

  /** "Next" is disabled at the last line of the last scene, exactly where a step forward stays put. */
  function NextButtonDisabled(scenes: seq<Scene>, p: Position): (disabled: bool)
    requires 0 <= p.scene < |scenes|
    ensures WellFormed(scenes) && ValidPosition(scenes, p) ==>
              (disabled <==> StepForward(scenes, p).Stay?)
  {
    p.scene == |scenes| - 1 && p.line == |scenes[p.scene].dialogue| - 1
  }

  /** `Math.max(0, Math.min(sceneId - 1, count - 1))`: the zero-based scene a
      one-based scene number refers to, pulled into range. */
  function ClampScene(sceneId: int, count: int): (scene: int)
    requires count > 0
    ensures 0 <= scene < count
    ensures 1 <= sceneId <= count ==> scene == sceneId - 1
    ensures sceneId < 1 ==> scene == 0
    ensures sceneId > count ==> scene == count - 1
  {
    if sceneId - 1 < count - 1 then (if sceneId - 1 > 0 then sceneId - 1 else 0) else count - 1
  }

  // ---------------------------------------------------------------------------
  // The viewer's state
  // ---------------------------------------------------------------------------

  class Viewer {
    /** `storyData.scenes`; the viewer never edits it. */
    const story: seq<Scene>
    var currentScene: int
    var currentDialogue: int
    var playerName: string
    /** Set on a scene crossing; while set, Next and Previous do nothing. */
    var isSceneTransition: bool
    /** Whether the message client is connected. */
    var connected: bool
    /** Every payload sent to `nerfwar/scene/advanced`, oldest first. */
    var published: seq<SceneAdvanced>

    /** The story has its authored shape and the reader is on an existing line. */
    ghost predicate Valid()
      reads this
    {
      WellFormed(story) && ValidPosition(story, Position(currentScene, currentDialogue))
    }

    function Pos(): Position
      reads this
    {
      Position(currentScene, currentDialogue)
    }

    /** The page as loaded: first line, default name, no lock, not connected. */
    constructor(story: seq<Scene>)
      requires WellFormed(story)
      ensures Valid() && this.story == story
      ensures Pos() == Position(0, 0) && playerName == DefaultPlayerName
      ensures !isSceneTransition && !connected && published == []
    {
      this.story := story;
      currentScene, currentDialogue := 0, 0;
      playerName := DefaultPlayerName;
      isSceneTransition, connected := false, false;
      published := [];
    }

    /** `onConnect` sets the flag, `onConnectFailure` and `onConnectionLost` clear it. */
    method SetConnected(up: bool)
      modifies this`connected
      ensures connected == up
    {
      connected := up;
    }

    /** The two-second timer set on a scene crossing has fired. */
    method EndCooldown()
      modifies this`isSceneTransition
      ensures !isSceneTransition
    {
      isSceneTransition := false;
    }

    /** Tells other viewers the one-based number of scene `sceneIndex`, if connected. */
    method PublishSceneChange(sceneIndex: int, now: int)
      modifies this`published
      ensures published == old(published)
                           + (if connected then [SceneAdvanced(sceneIndex + 1, Some(playerName), now)] else [])
    {
      if connected {
        published := published + [SceneAdvanced(sceneIndex + 1, Some(playerName), now)];
      }
    }

    /**
     * The Next button. Locked: nothing happens. Otherwise one step forward; only
     * a scene crossing sets the lock and publishes the new scene; at the end of
     * the story nothing changes.
     */
    method NextScene(now: int)
      requires Valid()
      modifies this
      ensures Valid() && playerName == old(playerName) && connected == old(connected)
      ensures old(isSceneTransition) ==>
                Pos() == old(Pos()) && isSceneTransition && published == old(published)
      ensures !old(isSceneTransition) ==>
                match StepForward(story, old(Pos()))
                case Stay =>
                  Pos() == old(Pos()) && !isSceneTransition && published == old(published)
                case Move(to, crossed) =>
                  Pos() == to && isSceneTransition == crossed
                  && published == old(published)
                     + (if crossed && connected then [SceneAdvanced(to.scene + 1, Some(playerName), now)] else [])
    {
      if isSceneTransition {
        return;
      }
      if currentDialogue < |story[currentScene].dialogue| - 1 {
        currentDialogue := currentDialogue + 1;
      } else if currentScene < |story| - 1 {
        currentScene := currentScene + 1;
        currentDialogue := 0;
        isSceneTransition := true;
        PublishSceneChange(currentScene, now);
      }
    }

    /**
     * The Previous button. Locked: nothing happens. Otherwise one step back,
     * onto the last line of the previous scene when crossing; only a crossing
     * sets the lock and publishes; at the first line nothing changes.
     */
    method PreviousScene(now: int)
      requires Valid()
      modifies this
      ensures Valid() && playerName == old(playerName) && connected == old(connected)
      ensures old(isSceneTransition) ==>
                Pos() == old(Pos()) && isSceneTransition && published == old(published)
      ensures !old(isSceneTransition) ==>
                match StepBackward(story, old(Pos()))
                case Stay =>
                  Pos() == old(Pos()) && !isSceneTransition && published == old(published)
                case Move(to, crossed) =>
                  Pos() == to && isSceneTransition == crossed
                  && published == old(published)
                     + (if crossed && connected then [SceneAdvanced(to.scene + 1, Some(playerName), now)] else [])
    {
      if isSceneTransition {
        return;
      }
      if currentDialogue > 0 {
        currentDialogue := currentDialogue - 1;
      } else if currentScene > 0 {
        currentScene := currentScene - 1;
        currentDialogue := |story[currentScene].dialogue| - 1;
        isSceneTransition := true;
        PublishSceneChange(currentScene, now);
      }
    }

    /**
     * A `SceneAdvanced` message arrived. One carrying this viewer's own player
     * name is ignored; any other moves to line 0 of the clamped scene, lock or
     * no lock, and is not re-published.
     */
    method OnMessageArrived(msg: SceneAdvanced)
      requires Valid()
      modifies this`currentScene, this`currentDialogue
      ensures Valid()
      ensures msg.player == Some(playerName) ==> Pos() == old(Pos())
      ensures msg.player != Some(playerName) ==> Pos() == Position(ClampScene(msg.sceneId, |story|), 0)
    {
      if msg.player != Some(playerName) {
        currentScene := ClampScene(msg.sceneId, |story|);
        currentDialogue := 0;
      }
    }

    /** Developer jump: an existing scene index goes to its first line; any other index is ignored. */
    method JumpToScene(sceneIndex: int)
      requires Valid()
      modifies this`currentScene, this`currentDialogue
      ensures Valid()
      ensures 0 <= sceneIndex < |story| ==> Pos() == Position(sceneIndex, 0)
      ensures !(0 <= sceneIndex < |story|) ==> Pos() == old(Pos())
    {
      if 0 <= sceneIndex && sceneIndex < |story| {
        currentScene := sceneIndex;
        currentDialogue := 0;
      }
    }

    /** Restart: back to the first line; the name and the lock are left as they are. */
    method ResetStory()
      requires Valid()
      modifies this`currentScene, this`currentDialogue
      ensures Valid() && Pos() == Position(0, 0)
    {
      currentScene := 0;
      currentDialogue := 0;
    }

    /** "Begin": takes the typed name, or the default when it is blank. */
    method StartStory(input: string)
      modifies this`playerName
      ensures playerName == PlayerNameFrom(input)
    {
      playerName := PlayerNameFrom(input);
    }
  }

  /**
   * Two viewers of stories with the same number of scenes: when `a` (not
   * locked, connected) crosses into a new scene and `b`, under another name,
   * receives what `a` published, `b` is on the first line of the scene `a`
   * reached.
   */
  method PeerFollowsSceneCrossing(a: Viewer, b: Viewer, now: int)
    requires a != b && a.Valid() && b.Valid() && |a.story| == |b.story|
    requires a.connected && !a.isSceneTransition && a.playerName != b.playerName
    requires StepForward(a.story, a.Pos()).Move? && StepForward(a.story, a.Pos()).crossed
    modifies a, b
    ensures b.Pos() == Position(a.Pos().scene, 0) && a.Pos() == StepForward(a.story, old(a.Pos())).to
  {
    a.NextScene(now);
    var msg := a.published[|a.published| - 1];
    b.OnMessageArrived(msg);
  }
}
