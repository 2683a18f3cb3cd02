/** The server's per-connection record (the fields of a `Client` object) and the
    pure parts of the move handler: the distance test and the key test. */
module Sessions {
  import opened Wire

  /** The fields of one server-side `Client`. `awaitsReady2` records that the
      `ready` handler has run and so the `ready2` listener is installed; the
      `disconnect`, `chat` and `move` listeners are installed exactly when
      `hasPrepared` is set. */
  datatype Session = Session(
    uuid: nat,
    position: Vec3,
    yaw: real,
    pitch: real,
    headYaw: real,
    hasPrepared: bool,
    hasPing: bool,
    actionId: int,
    moveKey: Key,
    awaitsReady2: bool)

  /** The field initialisers of `Client`. */
  function NewSession(uuid: nat): (s: Session)
    ensures s.uuid == uuid
    ensures !s.hasPrepared && !s.awaitsReady2 && !s.hasPing
    ensures forall k :: !Unauthorized(s.moveKey, k)
  {
    Session(uuid, Vec3(0.0, 0.0, 0.0), 0.0, 0.0, 0.0, false, false, 0, None, false)
  }

  /** `parseEntity`: the public view of a session, with the action under `action`. */
  function ParseEntity(s: Session): (e: EntityInfo)
    ensures e.uuid == s.uuid
    ensures e.position == s.position && e.yaw == s.yaw && e.pitch == s.pitch && e.headYaw == s.headYaw
    ensures e.action == s.actionId
  {
    EntityInfo(s.uuid, s.position, s.yaw, s.pitch, s.headYaw, s.actionId)
  }

  /** `distance(p) > 10`, stated on the square of the distance. */
  predicate TooFar(from: Vec3, to: Vec3)
    ensures from == to ==> !TooFar(from, to)
  {
    SqDist(from, to) > 100.0
  }

  /** Comparing the square of the distance with 100 decides `distance > 10` exactly:
      `d` stands for the square root the source computes. */
  lemma TooFarIsDistanceAboveTen(from: Vec3, to: Vec3, d: real)
    requires 0.0 <= d && d * d == SqDist(from, to)
    ensures d > 10.0 <==> TooFar(from, to)
  {
    RootComparison(d, SqDist(from, to), 10.0);
  }

  /** The key test `this.moveKey && this.moveKey !== ev.key`. */
  predicate Unauthorized(held: Key, key: Key)
    ensures key == held ==> !Unauthorized(held, key)
    ensures !Truthy(held) ==> !Unauthorized(held, key)
    ensures Truthy(held) && key != held ==> Unauthorized(held, key)
  {
    Truthy(held) && held != key
  }

  /** What the move handler decides for a registered, prepared session. */
  datatype Verdict = IllegalMove | UnauthorizedMove | Accepted

  /** The two checks of the move handler, the distance first and the key second. */
  function Judge(s: Session, p: MovePacket): (v: Verdict)
    ensures v == IllegalMove <==> TooFar(s.position, p.position)
    ensures v == UnauthorizedMove ==> p.key != s.moveKey && Truthy(s.moveKey)
    ensures v == Accepted <==> !TooFar(s.position, p.position) && (p.key == s.moveKey || !Truthy(s.moveKey))
  {
    if TooFar(s.position, p.position) then IllegalMove
    else if Unauthorized(s.moveKey, p.key) then UnauthorizedMove
    else Accepted
  }

  /** The state an accepted move commits: the proposed pose and a new key. */
  function Commit(s: Session, p: MovePacket, nonce: real): (r: Session)
    ensures r.uuid == s.uuid && r.hasPrepared == s.hasPrepared && r.hasPing == s.hasPing
    ensures r.awaitsReady2 == s.awaitsReady2
    ensures ParseEntity(r) == EntityInfo(s.uuid, p.position, p.yaw, p.pitch, p.headYaw, p.actionId)
    ensures r.moveKey == Some(nonce)
    ensures forall q: MovePacket :: q.key == Some(nonce) && !TooFar(p.position, q.position) ==> Judge(r, q) == Accepted
    ensures forall q: MovePacket :: nonce != 0.0 && q.key != Some(nonce) && !TooFar(p.position, q.position) ==>
      Judge(r, q) == UnauthorizedMove
  {
    s.(moveKey := Some(nonce), position := p.position, yaw := p.yaw, pitch := p.pitch,
       headYaw := p.headYaw, actionId := p.actionId)
  }
}
