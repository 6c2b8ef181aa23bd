/**
 * The control dashboard of orchestrator.js (class `StoryOrchestrator`): its own
 * position in an editable story, the table of viewers that have sent a
 * heartbeat, the filter on story-state messages from other dashboards, and the
 * edits it makes to the current line.
 *
 * Publishing is an appended list of (topic, payload) pairs, sent only while
 * connected; `Date.now()` is a `now` argument; the 30-second sweep timer is an
 * explicit `SweepDevices(now)` call. A JavaScript TypeError raised by reading a
 * missing scene or line is modelled by what it leaves behind: the handler stops
 * where it was thrown.
 */
module Orchestrator {
  import opened Wrappers
  import opened Strings
  import opened StoryModel

  const StateTopic: string := "nerfwar/story/state"
  const CommandsTopic: string := "nerfwar/orchestrator/commands"
  const HeartbeatTopic: string := "nerfwar/clients/heartbeat"
  const MediaTopic: string := "nerfwar/orchestrator/media"

  /** Milliseconds without a heartbeat after which the sweep drops a device. */
  const DeviceTimeout: int := 60000

  /** The fields of a parsed inbound JSON object that the dashboard reads; any may be absent. */
  datatype Data = Data(
    clientId: Option<string>,
    playerName: Option<string>,
    orchestratorId: Option<string>,
    sceneId: Option<int>,
    dialogueIndex: Option<int>)

  /** A `connectedDevices` entry: the heartbeat's fields plus the time it was received. */
  datatype DeviceRecord = DeviceRecord(data: Data, lastSeen: int)

  /** What the dashboard publishes; every message is sent retained. */
  datatype Payload =
    | PageSync(sceneId: int, dialogueIndex: int, background: string, dialogue: DialogueLine,
               media: Media, timestamp: int, orchestratorId: string)
    | StoryUpdate(storyData: seq<Scene>, timestamp: int, orchestratorId: string)
    | MediaUpdate(sceneId: int, dialogueIndex: int, media: Media, timestamp: int, orchestratorId: string)
    | DisconnectCommand(targetDevice: string, timestamp: int, orchestratorId: string)

  datatype Publication = Publication(topic: string, payload: Payload)

  /** JavaScript truthiness of an optional string: present and not "". */
  predicate Present(s: Option<string>) {
    s.Some? && s.value != ""
  }

  // ---------------------------------------------------------------------------
  // Stepping: broadcastNext / broadcastPrevious
  // ---------------------------------------------------------------------------

  /**
   * Where `broadcastNext` moves from `p`, or None when it changes nothing:
   * at the end of the story it returns early, and when `p.scene` names no
   * scene it throws before changing anything. From a valid position it steps
   * exactly as the viewer's Next button does.
   */
  function NextTarget(scenes: seq<Scene>, p: Position): (r: Option<Position>)
    requires WellFormed(scenes)
    ensures ValidPosition(scenes, p) ==>
              r == (if StepForward(scenes, p).Move? then Some(StepForward(scenes, p).to) else None)
    ensures ValidPosition(scenes, p) ==> (r.None? <==> AtEnd(scenes, p))
    ensures !(0 <= p.scene < |scenes|) ==> r.None?
    ensures r.Some? ==> 0 <= r.value.scene < |scenes|
  {
    if !(0 <= p.scene < |scenes|) then None
    else if p.line < |scenes[p.scene].dialogue| - 1 then Some(Position(p.scene, p.line + 1))
    else if p.scene < |scenes| - 1 then Some(Position(p.scene + 1, 0))
    else None
  }

  /**
   * Where `broadcastPrevious` moves from `p`, or None when it changes nothing:
   * at line 0 of scene 0 (or below) it returns early, and when the scene before
   * `p.scene` does not exist it throws before changing anything. From a valid
   * position it steps exactly as the viewer's Previous button does.
   */
  function PrevTarget(scenes: seq<Scene>, p: Position): (r: Option<Position>)
    requires WellFormed(scenes)
    ensures ValidPosition(scenes, p) ==>
              r == (if StepBackward(scenes, p).Move? then Some(StepBackward(scenes, p).to) else None)
    ensures ValidPosition(scenes, p) ==> (r.None? <==> AtStart(p))
    ensures p.line <= 0 && p.scene <= 0 ==> r.None?
  {
    if p.line > 0 then Some(Position(p.scene, p.line - 1))
    else if p.scene > 0 then
      if p.scene - 1 < |scenes| then Some(Position(p.scene - 1, |scenes[p.scene - 1].dialogue| - 1))
      else None
    else None
  }

  /** From a valid position, Previous after a successful Next is back where it started. */
  lemma NextThenPreviousRestores(scenes: seq<Scene>, p: Position)
    requires WellFormed(scenes) && ValidPosition(scenes, p)
    requires NextTarget(scenes, p).Some?
    ensures PrevTarget(scenes, NextTarget(scenes, p).value) == Some(p)
  {
    ForwardThenBackward(scenes, p);
  }

  /** From a valid position, Next after a successful Previous is back where it started. */
  lemma PreviousThenNextRestores(scenes: seq<Scene>, p: Position)
    requires WellFormed(scenes) && ValidPosition(scenes, p)
    requires PrevTarget(scenes, p).Some?
    ensures NextTarget(scenes, PrevTarget(scenes, p).value) == Some(p)
  {
    BackwardThenForward(scenes, p);
  }

  // ---------------------------------------------------------------------------
  // Inbound story state
  // ---------------------------------------------------------------------------

  /**
   * The position `handleStoryStateUpdate` adopts, or None when it ignores the
   * message: only a message naming ANOTHER dashboard is followed, and its
   * `sceneId` / `dialogueIndex` are taken as they are (missing ones as 0, `|| 0`),
   * with no bounds check.
   */
  function StoryStateTarget(data: Data, selfId: string): (r: Option<Position>)
    ensures r.Some? <==> Present(data.orchestratorId) && data.orchestratorId.value != selfId
    ensures r.Some? ==> r.value == Position(data.sceneId.GetOr(0), data.dialogueIndex.GetOr(0))
  {
    if Present(data.orchestratorId) && data.orchestratorId.value != selfId then
      Some(Position(data.sceneId.GetOr(0), data.dialogueIndex.GetOr(0)))
    else None
  }

  /** What a dashboard reads back from a `PageSync` payload once it has gone
      through JSON. */
  function Received(p: Payload): Data
    requires p.PageSync?
  {
    Data(None, None, Some(p.orchestratorId), Some(p.sceneId), Some(p.dialogueIndex))
  }

  /** The page-sync payload for the line at `p`. */
  function PagePayload(scenes: seq<Scene>, p: Position, selfId: string, now: int): Payload
    requires ValidPosition(scenes, p)
  {
    var line := LineAt(scenes, p);
    PageSync(p.scene, p.line, scenes[p.scene].background, line, line.media.GetOr(Media(None, None)), now, selfId)
  }

  /** A dashboard's own page sync, delivered back to it on the shared topic
      while its client id is still the one it was sent under, is ignored. */
  lemma OwnPageSyncIgnored(scenes: seq<Scene>, p: Position, selfId: string, now: int)
    requires ValidPosition(scenes, p)
    ensures StoryStateTarget(Received(PagePayload(scenes, p, selfId, now)), selfId).None?
  {
  }

  /** Another dashboard adopts exactly the position a page sync announces. */
  lemma PeerAdoptsPageSync(scenes: seq<Scene>, p: Position, senderId: string, selfId: string, now: int)
    requires ValidPosition(scenes, p) && senderId != "" && senderId != selfId
    ensures StoryStateTarget(Received(PagePayload(scenes, p, senderId, now)), selfId) == Some(p)
  {
  }

  // ---------------------------------------------------------------------------
  // Presence table
  // ---------------------------------------------------------------------------

  /** Whether `handleClientHeartbeat` records the message: a non-empty `clientId` that is not this dashboard's. */
  predicate HeartbeatAccepted(data: Data, selfId: string) {
    Present(data.clientId) && data.clientId.value != selfId
  }

  /**
   * The device table after a heartbeat: an accepted one inserts or overwrites
   * the sender's entry with `lastSeen = now` and leaves every other entry; any
   * other heartbeat leaves the table as it was.
   */
  function AfterHeartbeat(devices: map<string, DeviceRecord>, data: Data, selfId: string, now: int)
    : (r: map<string, DeviceRecord>)
    ensures !HeartbeatAccepted(data, selfId) ==> r == devices
    ensures HeartbeatAccepted(data, selfId) ==>
              var id := data.clientId.value;
              r.Keys == devices.Keys + {id} && r[id] == DeviceRecord(data, now)
              && forall k :: k in devices && k != id ==> r[k] == devices[k]
  {
    if HeartbeatAccepted(data, selfId) then devices[data.clientId.value := DeviceRecord(data, now)]
    else devices
  }

  /** A device is stale once more than `DeviceTimeout` ms have passed since its last heartbeat. */
  predicate Expired(record: DeviceRecord, now: int) {
    now - record.lastSeen > DeviceTimeout
  }

  /** The table after the sweep: exactly the entries that are not stale, unchanged. */
  function Unexpired(devices: map<string, DeviceRecord>, now: int): (r: map<string, DeviceRecord>)
    ensures r.Keys <= devices.Keys
    ensures forall id :: id in devices ==> (id in r <==> !Expired(devices[id], now))
    ensures forall id :: id in r ==> r[id] == devices[id]
  {
    map id | id in devices && !Expired(devices[id], now) :: devices[id]
  }

  /** A device last heard from at `t` is still listed by a sweep at `t + 60000`
      and gone after a sweep at `t + 60001`. */
  lemma HeartbeatLifetime(devices: map<string, DeviceRecord>, data: Data, selfId: string, t: int)
    requires HeartbeatAccepted(data, selfId)
    ensures data.clientId.value in Unexpired(AfterHeartbeat(devices, data, selfId, t), t + DeviceTimeout)
    ensures data.clientId.value !in Unexpired(AfterHeartbeat(devices, data, selfId, t), t + DeviceTimeout + 1)
  {
  }

  /** Sweeping twice at the same time removes nothing more. */
  lemma SweepIdempotent(devices: map<string, DeviceRecord>, now: int)
    ensures Unexpired(Unexpired(devices, now), now) == Unexpired(devices, now)
  {
  }

  // ---------------------------------------------------------------------------
  // Media edits
  // ---------------------------------------------------------------------------

  /** `line.media`, or a fresh empty media object when it has none. */
  function MediaOf(line: DialogueLine): Media {
    line.media.GetOr(Media(None, None))
  }

  /** The line with its image slot set: speaker, text and audio are kept. */
  function WithImage(line: DialogueLine, asset: MediaAsset): (r: DialogueLine)
    ensures r.speaker == line.speaker && r.text == line.text
    ensures r.media.Some? && r.media.value.image == Some(asset)
    ensures r.media.value.audio == (if line.media.Some? then line.media.value.audio else None)
  {
    line.(media := Some(MediaOf(line).(image := Some(asset))))
  }

  /** The line with its audio slot set: speaker, text and image are kept. */
  function WithAudio(line: DialogueLine, asset: MediaAsset): (r: DialogueLine)
    ensures r.speaker == line.speaker && r.text == line.text
    ensures r.media.Some? && r.media.value.audio == Some(asset)
    ensures r.media.value.image == (if line.media.Some? then line.media.value.image else None)
  {
    line.(media := Some(MediaOf(line).(audio := Some(asset))))
  }

  // ---------------------------------------------------------------------------
  // The dashboard
  // ---------------------------------------------------------------------------

  class StoryOrchestrator {
    /** `mqttClient.clientId`: a fresh random id on every `connectMQTT`. */
    var clientId: string
    var currentScene: int
    var currentDialogue: int
    /** Heartbeat senders by client id. */
    var connectedDevices: map<string, DeviceRecord>
    /** `storyData.scenes`, edited in place. */
    var scenes: seq<Scene>
    var isConnected: bool
    /** Every message published, oldest first. */
    var outbox: seq<Publication>

    /** The story keeps its authored shape; the position may be anything. */
    ghost predicate Valid()
      reads this
    {
      WellFormed(scenes)
    }

    function Pos(): Position
      reads this
    {
      Position(currentScene, currentDialogue)
    }

    /** The dashboard once its story is loaded: first line, no devices, not yet connected. */
    constructor(story: seq<Scene>, clientId: string)
      requires WellFormed(story) && clientId != ""
      ensures Valid() && scenes == story && this.clientId == clientId
      ensures Pos() == Position(0, 0) && connectedDevices == map[]
      ensures !isConnected && outbox == []
    {
      this.clientId := clientId;
      currentScene, currentDialogue := 0, 0;
      connectedDevices := map[];
      scenes := story;
      isConnected := false;
      outbox := [];
    }

    /** The connection callbacks: `onSuccess` sets the flag, `onFailure` and `onConnectionLost` clear it. */
    method SetConnected(up: bool)
      modifies this`isConnected
      ensures isConnected == up
    {
      isConnected := up;
    }

    /**
     * `connectMQTT`, run at start-up, after every lost connection and on
     * "reconnect": a new client under the random id `newId`. The connection
     * flag is left to the callbacks (`SetConnected`).
     */
    method ConnectMQTT(newId: string)
      modifies this`clientId
      ensures clientId == newId
    {
      clientId := newId;
    }

    /** `publishMessage`: sends (and reports true) only while connected. */
    method Publish(topic: string, payload: Payload) returns (sent: bool)
      modifies this`outbox
      ensures sent == isConnected
      ensures outbox == old(outbox) + (if isConnected then [Publication(topic, payload)] else [])
    {
      sent := isConnected;
      if isConnected {
        outbox := outbox + [Publication(topic, payload)];
      }
    }

    /** Click on a scene: its first line, unchecked. */
    method SelectScene(sceneIndex: int)
      modifies this`currentScene, this`currentDialogue
      ensures Pos() == Position(sceneIndex, 0)
    {
      currentScene := sceneIndex;
      currentDialogue := 0;
    }

    /** Click on a line: that line, unchecked. */
    method SelectDialogue(sceneIndex: int, dialogueIndex: int)
      modifies this`currentScene, this`currentDialogue
      ensures Pos() == Position(sceneIndex, dialogueIndex)
    {
      currentScene := sceneIndex;
      currentDialogue := dialogueIndex;
    }

    /** Publishes the current line to `StateTopic`; when the position names no
        line, reading it throws and nothing is sent. */
    method BroadcastCurrentPage(now: int)
      modifies this`outbox
      ensures ValidPosition(scenes, Pos()) ==>
                outbox == old(outbox)
                          + (if isConnected then [Publication(StateTopic, PagePayload(scenes, Pos(), clientId, now))] else [])
      ensures !ValidPosition(scenes, Pos()) ==> outbox == old(outbox)
    {
      if !(0 <= currentScene < |scenes|) || !(0 <= currentDialogue < |scenes[currentScene].dialogue|) {
        return;
      }
      var _ := Publish(StateTopic, PagePayload(scenes, Pos(), clientId, now));
    }

    /**
     * "Next page": moves to `NextTarget` and publishes the new line; at the end
     * of the story (or from a scene that does not exist) nothing changes and
     * nothing is sent.
     */
    method BroadcastNext(now: int)
      requires Valid()
      modifies this`currentScene, this`currentDialogue, this`outbox
      ensures Valid()
      ensures match NextTarget(scenes, old(Pos()))
              case None => Pos() == old(Pos()) && outbox == old(outbox)
              case Some(q) =>
                Pos() == q
                && outbox == old(outbox)
                   + (if isConnected && ValidPosition(scenes, q)
                      then [Publication(StateTopic, PagePayload(scenes, q, clientId, now))] else [])
    {
      if !(0 <= currentScene < |scenes|) {
        return;
      }
      var scene := scenes[currentScene];
      var nextScene, nextDialogue := currentScene, currentDialogue;
      if currentDialogue < |scene.dialogue| - 1 {
        nextDialogue := nextDialogue + 1;
      } else if currentScene < |scenes| - 1 {
        nextScene := nextScene + 1;
        nextDialogue := 0;
      } else {
        return;
      }
      currentScene, currentDialogue := nextScene, nextDialogue;
      BroadcastCurrentPage(now);
    }

    /**
     * "Previous page": moves to `PrevTarget` and publishes the new line; at the
     * start of the story (or when the scene before does not exist) nothing
     * changes and nothing is sent.
     */
    method BroadcastPrevious(now: int)
      requires Valid()
      modifies this`currentScene, this`currentDialogue, this`outbox
      ensures Valid()
      ensures match PrevTarget(scenes, old(Pos()))
              case None => Pos() == old(Pos()) && outbox == old(outbox)
              case Some(q) =>
                Pos() == q
                && outbox == old(outbox)
                   + (if isConnected && ValidPosition(scenes, q)
                      then [Publication(StateTopic, PagePayload(scenes, q, clientId, now))] else [])
    {
      var prevScene, prevDialogue := currentScene, currentDialogue;
      if currentDialogue > 0 {
        prevDialogue := prevDialogue - 1;
      } else if currentScene > 0 {
        prevScene := prevScene - 1;
        if prevScene >= |scenes| {
          return;
        }
        prevDialogue := |scenes[prevScene].dialogue| - 1;
      } else {
        return;
      }
      currentScene, currentDialogue := prevScene, prevDialogue;
      BroadcastCurrentPage(now);
    }

    /** The number of lines before the current one, summed scene by scene (the
        same index `updateActiveStates` highlights). */
    method GetCurrentPosition() returns (position: int)
      requires currentScene <= |scenes|
      ensures position == FlatIndex(scenes, Pos())
      ensures ValidPosition(scenes, Pos()) ==> 0 <= position < TotalLines(scenes)
    {
      position := 0;
      var i := 0;
      while i < currentScene
        invariant 0 <= i <= (if currentScene < 0 then 0 else currentScene)
        invariant position == LinesBefore(scenes, i)
      {
        position := position + |scenes[i].dialogue|;
        i := i + 1;
      }
      position := position + currentDialogue;
      if ValidPosition(scenes, Pos()) {
        FlatIndexInRange(scenes, Pos());
      }
    }

    /** A heartbeat: upserts the sender, unless it has no id or is this dashboard. */
    method HandleClientHeartbeat(data: Data, now: int)
      modifies this`connectedDevices
      ensures connectedDevices == AfterHeartbeat(old(connectedDevices), data, clientId, now)
    {
      if Present(data.clientId) && data.clientId.value != clientId {
        connectedDevices := connectedDevices[data.clientId.value := DeviceRecord(data, now)];
      }
    }

    /** The periodic sweep: visits every device once and deletes the stale ones. */
    method SweepDevices(now: int)
      modifies this`connectedDevices
      ensures connectedDevices == Unexpired(old(connectedDevices), now)
    {
      ghost var before := connectedDevices;
      var pending := connectedDevices.Keys;
      while pending != {}
        invariant pending <= before.Keys
        invariant forall id :: id in connectedDevices <==>
                    id in before && (id in pending || !Expired(before[id], now))
        invariant forall id :: id in connectedDevices ==> connectedDevices[id] == before[id]
        decreases pending
      {
        var id :| id in pending;
        if now - connectedDevices[id].lastSeen > DeviceTimeout {
          connectedDevices := connectedDevices - {id};
        }
        pending := pending - {id};
      }
    }

    /** "Disconnect": sends the disconnect command and forgets that one device. */
    method DisconnectDevice(deviceId: string, now: int)
      modifies this`outbox, this`connectedDevices
      ensures connectedDevices == old(connectedDevices) - {deviceId}
      ensures outbox == old(outbox)
                        + (if isConnected then [Publication(CommandsTopic, DisconnectCommand(deviceId, now, clientId))] else [])
    {
      var _ := Publish(CommandsTopic, DisconnectCommand(deviceId, now, clientId));
      connectedDevices := connectedDevices - {deviceId};
    }

    /** A story-state message: followed only when another dashboard sent it. */
    method HandleStoryStateUpdate(data: Data)
      modifies this`currentScene, this`currentDialogue
      ensures match StoryStateTarget(data, clientId)
              case None => Pos() == old(Pos())
              case Some(q) => Pos() == q
    {
      if Present(data.orchestratorId) && data.orchestratorId.value != clientId {
        currentScene := data.sceneId.GetOr(0);
        currentDialogue := data.dialogueIndex.GetOr(0);
      }
    }

    /** Routes an inbound message by topic; responses and unknown topics change nothing. */
    method HandleMQTTMessage(topic: string, data: Data, now: int)
      modifies this`currentScene, this`currentDialogue, this`connectedDevices
      ensures topic == HeartbeatTopic ==>
                connectedDevices == AfterHeartbeat(old(connectedDevices), data, clientId, now)
                && Pos() == old(Pos())
      ensures topic == StateTopic ==>
                connectedDevices == old(connectedDevices)
                && Pos() == StoryStateTarget(data, clientId).GetOr(old(Pos()))
      ensures topic != HeartbeatTopic && topic != StateTopic ==>
                connectedDevices == old(connectedDevices) && Pos() == old(Pos())
    {
      if topic == HeartbeatTopic {
        HandleClientHeartbeat(data, now);
      } else if topic == StateTopic {
        HandleStoryStateUpdate(data);
      }
    }

    /** Publishes the whole story as a `story-update` command. */
    method BroadcastStoryUpdate(now: int)
      modifies this`outbox
      ensures outbox == old(outbox)
                        + (if isConnected then [Publication(CommandsTopic, StoryUpdate(scenes, now, clientId))] else [])
    {
      var _ := Publish(CommandsTopic, StoryUpdate(scenes, now, clientId));
    }

    /** Publishes the current line's media. */
    method BroadcastMediaUpdate(now: int)
      requires ValidPosition(scenes, Pos())
      modifies this`outbox
      ensures outbox == old(outbox)
                        + (if isConnected
                           then [Publication(MediaTopic, MediaUpdate(currentScene, currentDialogue,
                                                                     MediaOf(LineAt(scenes, Pos())), now, clientId))]
                           else [])
    {
      var _ := Publish(MediaTopic, MediaUpdate(currentScene, currentDialogue, MediaOf(LineAt(scenes, Pos())), now, clientId));
    }

    /**
     * The editor's Save: trims both inputs and refuses when either is blank;
     * otherwise the current line gets the new speaker and text, keeps its
     * media, and the whole story is published.
     */
    method SaveDialogue(speakerInput: string, dialogueInput: string, now: int)
      requires Valid()
      modifies this`scenes, this`outbox
      ensures Valid()
      ensures Trim(speakerInput) == [] || Trim(dialogueInput) == [] || !ValidPosition(old(scenes), Pos()) ==>
                scenes == old(scenes) && outbox == old(outbox)
      ensures Trim(speakerInput) != [] && Trim(dialogueInput) != [] && ValidPosition(old(scenes), Pos()) ==>
                scenes == ReplaceLine(old(scenes), Pos(),
                                      LineAt(old(scenes), Pos()).(speaker := Trim(speakerInput), text := Trim(dialogueInput)))
                && outbox == old(outbox)
                   + (if isConnected then [Publication(CommandsTopic, StoryUpdate(scenes, now, clientId))] else [])
    {
      var speaker := Trim(speakerInput);
      var text := Trim(dialogueInput);
      if speaker == [] || text == [] {
        return;
      }
      if !ValidPosition(scenes, Pos()) {
        return;
      }
      StoreLine(LineAt(scenes, Pos()).(speaker := speaker, text := text), now);
    }

    /** Puts `line` in place of the current one and publishes the story. */
    method StoreLine(line: DialogueLine, now: int)
      requires Valid() && ValidPosition(scenes, Pos())
      modifies this`scenes, this`outbox
      ensures Valid()
      ensures scenes == ReplaceLine(old(scenes), Pos(), line)
      ensures outbox == old(outbox)
                        + (if isConnected then [Publication(CommandsTopic, StoryUpdate(scenes, now, clientId))] else [])
    {
      scenes := ReplaceLine(scenes, Pos(), line);
      BroadcastStoryUpdate(now);
    }

    /** Stores an image on the current line (creating its media object if
        needed) and publishes the line's media; on a missing line it throws
        and nothing changes. */
    method SaveImageToDialogue(imageData: string, fileName: string, now: int)
      requires Valid()
      modifies this`scenes, this`outbox
      ensures Valid()
      ensures !ValidPosition(old(scenes), Pos()) ==> scenes == old(scenes) && outbox == old(outbox)
      ensures ValidPosition(old(scenes), Pos()) ==>
                scenes == ReplaceLine(old(scenes), Pos(),
                                      WithImage(LineAt(old(scenes), Pos()), MediaAsset(imageData, fileName, None, now)))
                && outbox == old(outbox)
                   + (if isConnected
                      then [Publication(MediaTopic, MediaUpdate(currentScene, currentDialogue,
                                                                MediaOf(LineAt(scenes, Pos())), now, clientId))]
                      else [])
    {
      if !ValidPosition(scenes, Pos()) {
        return;
      }
      var line := scenes[currentScene].dialogue[currentDialogue];
      scenes := ReplaceLine(scenes, Pos(), WithImage(line, MediaAsset(imageData, fileName, None, now)));
      BroadcastMediaUpdate(now);
    }

    /** Stores an audio clip (with the editor's autoplay choice) on the current
        line and publishes the line's media; on a missing line it throws and
        nothing changes. */
    method SaveAudioToDialogue(audioData: string, fileName: string, autoplay: bool, now: int)
      requires Valid()
      modifies this`scenes, this`outbox
      ensures Valid()
      ensures !ValidPosition(old(scenes), Pos()) ==> scenes == old(scenes) && outbox == old(outbox)
      ensures ValidPosition(old(scenes), Pos()) ==>
                scenes == ReplaceLine(old(scenes), Pos(),
                                      WithAudio(LineAt(old(scenes), Pos()), MediaAsset(audioData, fileName, Some(autoplay), now)))
                && outbox == old(outbox)
                   + (if isConnected
                      then [Publication(MediaTopic, MediaUpdate(currentScene, currentDialogue,
                                                                MediaOf(LineAt(scenes, Pos())), now, clientId))]
                      else [])
    {
      if !ValidPosition(scenes, Pos()) {
        return;
      }
      var line := scenes[currentScene].dialogue[currentDialogue];
      scenes := ReplaceLine(scenes, Pos(), WithAudio(line, MediaAsset(audioData, fileName, Some(autoplay), now)));
      BroadcastMediaUpdate(now);
    }
  }

  /**
   * Page syncs are retained and a reconnect draws a new client id, so,
   * provided no other dashboard has published a page sync since, the
   * dashboard's last page sync comes back to it as if another dashboard had
   * sent it: after moving elsewhere, it snaps back to the position it last
   * announced. The broker keeps one retained message per topic, so a later
   * sync from another dashboard would be delivered instead.
   */
  method ReconnectReplaysOwnPageSync(o: StoryOrchestrator, newId: string, q: Position, now: int)
    requires o.Valid() && ValidPosition(o.scenes, o.Pos()) && o.isConnected
    requires o.clientId != "" && newId != o.clientId
    modifies o
    ensures o.Pos() == old(o.Pos()) && o.clientId == newId
  {
    o.BroadcastCurrentPage(now);
    var sync := o.outbox[|o.outbox| - 1];
    PeerAdoptsPageSync(o.scenes, o.Pos(), o.clientId, newId, now);
    o.ConnectMQTT(newId);
    o.SetConnected(true);
    o.SelectDialogue(q.scene, q.line);
    o.HandleStoryStateUpdate(Received(sync.payload));
  }
}
