/** The browser client's half: the local player's move-key gating and the table of
    remote entities (`serverData.entities`) that the socket handlers maintain. */
module GameClient {
  import opened Wire

  /** An entry of `serverData.entities`: the fields of a remote `Entity` that the
      handlers read or write. `actionId` is `None` where the source stores `undefined`. */
  datatype RemoteEntity = RemoteEntity(uuid: nat, position: Vec3, yaw: real, pitch: real, headYaw: real, actionId: Option<int>)

  /** `lastYawNPitch[i]`, `undefined` past the end. */
  function At(s: seq<real>, i: nat): Option<real> {
    if i < |s| then Some(s[i]) else None
  }

  /** `hasMoved`: the distance from the last sent position (on its square), then the
      three angle comparisons; index 2 holds the pitch. Before the first send the
      array has two entries, so the test succeeds; right after a send it fails. */
  function HasMoved(lastPos: Vec3, lastYawNPitch: seq<real>, position: Vec3, yaw: real, pitch: real, headYaw: real): (b: bool)
    ensures |lastYawNPitch| < 3 ==> b
    ensures SqDist(lastPos, position) > 0.0 ==> b
    ensures lastPos == position && lastYawNPitch == [yaw, headYaw, pitch] ==> !b
    ensures (At(lastYawNPitch, 0) != Some(yaw) || At(lastYawNPitch, 1) != Some(headYaw)
             || At(lastYawNPitch, 2) != Some(pitch)) ==> b
  {
    SqDist(lastPos, position) > 0.0
      || At(lastYawNPitch, 0) != Some(yaw)
      || At(lastYawNPitch, 1) != Some(headYaw)
      || At(lastYawNPitch, 2) != Some(pitch)
  }

  /** `lastPos.distance(this) > 0` is decided by the square of the distance; `d`
      stands for the square root the source computes. */
  lemma MovedIsDistanceAboveZero(lastPos: Vec3, position: Vec3, d: real)
    requires 0.0 <= d && d * d == SqDist(lastPos, position)
    ensures d > 0.0 <==> SqDist(lastPos, position) > 0.0
  {
    RootComparison(d, SqDist(lastPos, position), 0.0);
  }

  /** The entity an `addEntities` entry creates: the position and the three angles
      of the roster entry; `actionId` keeps the class default 0. */
  function Spawn(e: EntityInfo): (r: RemoteEntity)
    ensures r.uuid == e.uuid && r.position == e.position
    ensures r.yaw == e.yaw && r.pitch == e.pitch && r.headYaw == e.headYaw
    ensures r.actionId == Some(0)
  {
    RemoteEntity(e.uuid, e.position, e.yaw, e.pitch, e.headYaw, Some(0))
  }

  /** What `updateEntity` writes into an entry. `actionId` reads `entity.actionId`,
      a key the server's entity record does not have, so it becomes `undefined`. */
  function Overwrite(r: RemoteEntity, e: EntityInfo): (o: RemoteEntity)
    ensures o.uuid == r.uuid
    ensures o.position == e.position && o.yaw == e.yaw && o.pitch == e.pitch && o.headYaw == e.headYaw
    ensures o.actionId == None
  {
    r.(position := e.position, yaw := e.yaw, pitch := e.pitch, headYaw := e.headYaw, actionId := None)
  }

  /** The `addEntities` filter: the player's own uuid, or an uuid already in the table. */
  predicate Skipped(table: map<nat, RemoteEntity>, self: int, e: EntityInfo)
    ensures self == e.uuid ==> Skipped(table, self, e)
    ensures e.uuid in table ==> Skipped(table, self, e)
    ensures self != e.uuid && e.uuid !in table ==> !Skipped(table, self, e)
  {
    self == e.uuid || e.uuid in table
  }

  /** The table after the `addEntities` loop has handled the whole roster. */
  function AddRoster(table: map<nat, RemoteEntity>, self: int, roster: seq<RosterEntry>): (t: map<nat, RemoteEntity>)
    ensures table.Keys <= t.Keys
    ensures self >= 0 && self as nat !in table ==> self as nat !in t
  {
    if roster == [] then table
    else
      var t := AddRoster(table, self, roster[..|roster| - 1]);
      var e := roster[|roster| - 1].entity;
      if Skipped(t, self, e) then t else t[e.uuid := Spawn(e)]
  }

  /** `addEntities` never touches an existing entry and never adds the player itself;
      it adds exactly the other roster uuids, each as an entity spawned from a roster
      entry with that uuid. */
  lemma {:induction false} AddRosterSpec(table: map<nat, RemoteEntity>, self: int, roster: seq<RosterEntry>, k: nat)
    ensures k in table ==> k in AddRoster(table, self, roster) && AddRoster(table, self, roster)[k] == table[k]
    ensures k in AddRoster(table, self, roster) <==>
      k in table || (k != self && exists i :: 0 <= i < |roster| && roster[i].entity.uuid == k)
    ensures k in AddRoster(table, self, roster) && k !in table ==>
      exists i :: 0 <= i < |roster| && roster[i].entity.uuid == k && AddRoster(table, self, roster)[k] == Spawn(roster[i].entity)
  {
    if roster != [] {
      var init := roster[..|roster| - 1];
      var last := |roster| - 1;
      AddRosterSpec(table, self, init, k);
      var t := AddRoster(table, self, init);
      var e := roster[last].entity;
      if k in t && k !in table {
        var i :| 0 <= i < |init| && init[i].entity.uuid == k && t[k] == Spawn(init[i].entity);
        assert roster[i] == init[i];
      }
      if k != self && (exists i :: 0 <= i < |roster| && roster[i].entity.uuid == k) {
        var i :| 0 <= i < |roster| && roster[i].entity.uuid == k;
        if i < last {
          assert init[i] == roster[i];
        }
      }
      if k != self && (exists i :: 0 <= i < |init| && init[i].entity.uuid == k) {
        var i :| 0 <= i < |init| && init[i].entity.uuid == k;
        assert roster[i] == init[i];
      }
    }
  }

  /** The local player. Only the fields the move-key protocol and the entity
      handlers use are modelled; `sent` collects what the client emits on its socket. */
  class Player {
    /** `player.uuid`: -1 until `open` assigns one. */
    var uuid: int
    var position: Vec3
    var yaw: real
    var pitch: real
    var headYaw: real
    var actionId: int
    var lastPos: Vec3
    var lastYawNPitch: seq<real>
    var moveKey: Key
    var isFirstMove: bool
    /** `serverData.entities`, by uuid. */
    var entities: map<nat, RemoteEntity>
    /** The `_open` counter. */
    var opens: nat
    /** A `window.location.reload()` has been requested. */
    var reloading: bool
    var sent: seq<Inbound>

    /** Every table entry is filed under its own uuid (`Entity.init` and `Entity.close`
        both use `this.uuid` as the key). */
    ghost predicate Table()
      reads this
    {
      forall k :: k in entities ==> entities[k].uuid == k
    }

    predicate Moved()
      reads this
    {
      HasMoved(lastPos, lastYawNPitch, position, yaw, pitch, headYaw)
    }

    /** The guard of `broadcastMovement`. */
    predicate MaySend()
      reads this
      ensures MaySend() ==> Moved()
      ensures Moved() && isFirstMove ==> MaySend()
      ensures !Truthy(moveKey) && !isFirstMove ==> !MaySend()
    {
      Moved() && (Truthy(moveKey) || isFirstMove)
    }

    /** `new Player(0, 0, 0, -1, socket)` with the field initialisers of `Entity` and
        `Player`. */
    constructor ()
      ensures Table() && MaySend()
      ensures uuid == -1 && position == Vec3(0.0, 0.0, 0.0) && yaw == 0.0 && pitch == 0.0 && headYaw == 0.0
      ensures actionId == 0 && lastPos == Vec3(0.0, 0.0, 0.0) && lastYawNPitch == [0.0, 0.0]
      ensures moveKey == None && isFirstMove && entities == map[] && opens == 0 && !reloading && sent == []
    {
      uuid := -1;
      position := Vec3(0.0, 0.0, 0.0);
      yaw := 0.0;
      pitch := 0.0;
      headYaw := 0.0;
      actionId := 0;
      lastPos := Vec3(0.0, 0.0, 0.0);
      lastYawNPitch := [0.0, 0.0];
      moveKey := None;
      isFirstMove := true;
      entities := map[];
      opens := 0;
      reloading := false;
      sent := [];
    }

    /** `player.init()`: the listeners are installed and `ready` is emitted. */
    method Start()
      modifies this`sent
      ensures sent == old(sent) + [Ready]
    {
      sent := sent + [Ready];
    }

    /** Input and physics move the player between frames and set `actionId` (0 idle,
        1 walking); they are not modelled, so the new pose is a parameter. */
    method Steer(newPosition: Vec3, newYaw: real, newPitch: real, newHeadYaw: real, newActionId: int)
      modifies this`position, this`yaw, this`pitch, this`headYaw, this`actionId
      ensures position == newPosition && yaw == newYaw && pitch == newPitch && headYaw == newHeadYaw
      ensures actionId == newActionId
    {
      position, yaw, pitch, headYaw, actionId := newPosition, newYaw, newPitch, newHeadYaw, newActionId;
    }

    /** `broadcastMovement`: send the pose with the held key when the player has moved
        and holds a key (or has never sent); then forget the key. */
    method BroadcastMovement() returns (moved: bool)
      modifies this`isFirstMove, this`lastPos, this`lastYawNPitch, this`sent, this`moveKey
      ensures moved == old(MaySend())
      ensures !moved ==> unchanged(this)
      ensures moved ==>
        && sent == old(sent) + [Move(MovePacket(position, yaw, pitch, headYaw, actionId, old(moveKey)))]
        && moveKey == None && !isFirstMove
        && lastPos == position && lastYawNPitch == [yaw, headYaw, pitch]
      ensures moved ==> !MaySend()
    {
      if !Moved() || (!Truthy(moveKey) && !isFirstMove) {
        return false;
      }
      isFirstMove := false;
      lastPos := position;
      lastYawNPitch := [yaw, headYaw, pitch];
      sent := sent + [Move(MovePacket(position, yaw, pitch, headYaw, actionId, moveKey))];
      moveKey := None;
      return true;
    }

    /** `Entity.init`: file the entity under its uuid. */
    method EntityInit(e: RemoteEntity)
      requires Table()
      modifies this`entities
      ensures Table()
      ensures entities == old(entities)[e.uuid := e]
    {
      entities := entities[e.uuid := e];
    }

    /** `Entity.close`: delete the entry filed under the entity's uuid. */
    method EntityClose(e: RemoteEntity)
      requires Table()
      modifies this`entities
      ensures Table()
      ensures entities == old(entities) - {e.uuid}
    {
      entities := entities - {e.uuid};
    }

    /** The `open` listener: a second `open` requests a reload (the handler still runs
        on); `ready2` is emitted and the uuid it carries adopted. */
    method OnOpen(issued: nat)
      modifies this`opens, this`reloading, this`sent, this`uuid
      ensures opens == old(opens) + 1
      ensures reloading == (old(reloading) || opens >= 2)
      ensures sent == old(sent) + [Ready2]
      ensures uuid == issued
    {
      opens := opens + 1;
      if opens >= 2 {
        reloading := true;
      }
      sent := sent + [Ready2];
      uuid := issued;
    }

    /** The `addEntities` listener. */
    method OnAddEntities(roster: seq<RosterEntry>)
      requires Table()
      modifies this`entities
      ensures Table()
      ensures entities == AddRoster(old(entities), uuid, roster)
    {
      var i := 0;
      while i < |roster|
        invariant 0 <= i <= |roster|
        invariant Table()
        invariant entities == AddRoster(old(entities), uuid, roster[..i])
      {
        var e := roster[i].entity;
        assert roster[..i + 1][..i] == roster[..i];
        if !(uuid == e.uuid || e.uuid in entities) {
          EntityInit(Spawn(e));
        }
        i := i + 1;
      }
      assert roster[..|roster|] == roster;
    }

    /** The `removeEntity` listener: close the entry if there is one. */
    method OnRemoveEntity(gone: nat)
      requires Table()
      modifies this`entities
      ensures Table()
      ensures entities == old(entities) - {gone}
      ensures gone !in old(entities) ==> entities == old(entities)
    {
      if gone in entities {
        EntityClose(entities[gone]);
      }
    }

    /** The `updateEntity` listener: the copy addressed to the entity itself only
        stores a truthy `nextKey`; any other copy overwrites an existing entry. */
    method OnUpdateEntity(recipient: nat, e: EntityInfo, nextKey: Key)
      requires Table()
      modifies this`moveKey, this`entities
      ensures Table()
      ensures moveKey == if recipient == e.uuid && Truthy(nextKey) then nextKey else old(moveKey)
      ensures recipient == e.uuid || e.uuid !in old(entities) ==> entities == old(entities)
      ensures recipient != e.uuid && e.uuid in old(entities) ==>
        entities == old(entities)[e.uuid := Overwrite(old(entities)[e.uuid], e)]
    {
      if recipient == e.uuid {
        if Truthy(nextKey) {
          moveKey := nextKey;
        }
        return;
      }
      if e.uuid !in entities {
        return;
      }
      entities := entities[e.uuid := Overwrite(entities[e.uuid], e)];
    }

    /** The `ping` listener answers with `pong`. */
    method OnPing()
      modifies this`sent
      ensures sent == old(sent) + [Pong]
    {
      sent := sent + [Pong];
    }

    /** Enter in the chat input sends the typed line. */
    method SendChat(message: string)
      modifies this`sent
      ensures sent == old(sent) + [Chat(message)]
    {
      sent := sent + [Chat(message)];
    }

    /** The `kicked` listener requests a reload. */
    method OnKicked()
      modifies this`reloading
      ensures reloading
    {
      reloading := true;
    }
  }
}
