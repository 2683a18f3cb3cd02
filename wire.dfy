/** Values that travel between the browser client and the session server,
    and the few JavaScript value conventions both halves rely on. */
module Wire {

  datatype Option<+T> = None | Some(value: T)

  /** A point in world space (the `{x, y, z}` objects of the wire format). */
  datatype Vec3 = Vec3(x: real, y: real, z: real)

  /** A move key as JavaScript holds it: `null`/absent, or a number. */
  type Key = Option<real>

  /** JavaScript truthiness of a key: `null` and `0` are falsy. */
  predicate Truthy(k: Key)
    ensures k == None || k == Some(0.0) ==> !Truthy(k)
    ensures Truthy(k) ==> k.Some?
  {
    k.Some? && k.value != 0.0
  }

  /** The entity record produced by the server's `parseEntity`. The action is
      carried under the name `action`, not `actionId`. */
  datatype EntityInfo = EntityInfo(uuid: nat, position: Vec3, yaw: real, pitch: real, headYaw: real, action: int)

  /** One element of an `addEntities` roster: `{uuid, entity}`. */
  datatype RosterEntry = RosterEntry(uuid: nat, entity: EntityInfo)

  /** One element of the server's chat log: `{time, message}`. */
  datatype ChatEntry = ChatEntry(time: int, message: string)

  /** Server-to-client events. `uuid` is always the recipient's own uuid. */
  datatype Event =
    | Open(time: int, uuid: nat, chat: seq<ChatEntry>)
    | AddEntities(time: int, uuid: nat, entities: seq<RosterEntry>)
    | UpdateEntity(time: int, entity: EntityInfo, uuid: nat, nextKey: Key)
    | ChatLine(time: int, uuid: nat, message: string)
    | Ping(time: int)
    | Kicked(time: int, reason: string)
    | RemoveEntity(time: int, uuid: nat, gone: nat)

  /** An event emitted on the socket of session `to`. */
  datatype Delivery = Delivery(to: nat, event: Event)

  /** The payload of a client's `move` message. */
  datatype MovePacket = MovePacket(position: Vec3, yaw: real, pitch: real, headYaw: real, actionId: int, key: Key)

  /** Client-to-server messages (the `disconnect` transport event included). */
  datatype Inbound =
    | Ready
    | Ready2
    | Disconnect
    | Chat(message: string)
    | Move(packet: MovePacket)
    | Pong

  /** The square of the Euclidean distance between two points. */
  function SqDist(a: Vec3, b: Vec3): (d: real)
    ensures a == b ==> d == 0.0
  {
    (a.x - b.x) * (a.x - b.x) + (a.y - b.y) * (a.y - b.y) + (a.z - b.z) * (a.z - b.z)
  }

  lemma ProductPositive(a: real, b: real)
    requires a > 0.0 && b > 0.0
    ensures a * b > 0.0
  {
  }

  lemma ProductNonNegative(a: real, b: real)
    requires a >= 0.0 && b >= 0.0
    ensures a * b >= 0.0
  {
  }

  /** For a non-negative root `d` of `s`, comparing `d` with a non-negative bound is
      comparing `s` with the bound's square: `Math.sqrt(s) > b` needs no root. */
  lemma RootComparison(d: real, s: real, bound: real)
    requires 0.0 <= d && 0.0 <= bound && d * d == s
    ensures d > bound <==> s > bound * bound
  {
    var dd, bb := d * d, bound * bound;
    if d > bound {
      ProductPositive(d - bound, d + bound);
      var q := (d - bound) * (d + bound);
      assert q == dd - bb;
      assert dd > bb;
    } else {
      ProductNonNegative(bound - d, d + bound);
      var q := (bound - d) * (d + bound);
      assert q == bb - dd;
      assert dd <= bb;
    }
  }

  function Digit(d: nat): (c: char)
    requires d < 10
    ensures c as int == '0' as int + d
  {
    ['0', '1', '2', '3', '4', '5', '6', '7', '8', '9'][d]
  }

  /** The number a string of decimal digits spells, most significant digit first. */
  function DigitsValue(s: string): int {
    if s == [] then 0 else 10 * DigitsValue(s[..|s| - 1]) + (s[|s| - 1] as int - '0' as int)
  }

  /** The decimal text JavaScript gives a non-negative integer in a string concatenation:
      digits only, no leading zero, and spelling `n`. */
  function DecimalText(n: nat): (s: string)
    ensures 1 <= |s|
    ensures forall i :: 0 <= i < |s| ==> '0' <= s[i] <= '9'
    ensures (s[0] == '0') == (n == 0)
    ensures DigitsValue(s) == n
  {
    if n < 10 then [Digit(n)]
    else
      var init := DecimalText(n / 10);
      assert (init + [Digit(n % 10)])[..|init|] == init;
      init + [Digit(n % 10)]
  }

  /** Different uuids give different texts, so the chat lines built from them name
      different sessions. */
  lemma DecimalTextInjective(a: nat, b: nat)
    requires DecimalText(a) == DecimalText(b)
    ensures a == b
  {
    assert DigitsValue(DecimalText(a)) == a && DigitsValue(DecimalText(b)) == b;
  }
}
