/** The session server: the `clients` registry, the chat log, the id counter and
    the handlers of every `Client`. What the handlers emit is appended to an outbox
    of deliveries, in the order the source emits it. */
module GameServer {
  import opened Wire
  import opened Sessions
  import opened Broadcast

  const LoginTimeoutReason: string := "You have waited too long for login action."
  const LoginTimeoutNotice: string := "login timeout"
  const PingTimeoutReason: string := "It took too long you to respond to server!"
  const PingTimeoutNotice: string := "timeout"
  const IllegalMoveReason: string := "Illegal move packet."
  const UnauthorizedMoveReason: string := "Unauthorized move packet."
  const DisconnectNotice: string := "client disconnect"

  function ConnectedLine(uuid: nat): string {
    "#" + DecimalText(uuid) + " has connected"
  }

  function DisconnectedLine(uuid: nat, notice: string): string {
    "#" + DecimalText(uuid) + " has disconnected: " + notice
  }

  function GuestLine(uuid: nat, message: string): string {
    "Guest " + DecimalText(uuid) + ": " + message
  }

  /** The length of the leading run of decimal digits. */
  function FirstNonDigit(s: string): (n: nat)
    ensures n <= |s|
  {
    if s != [] && '0' <= s[0] <= '9' then 1 + FirstNonDigit(s[1..]) else 0
  }

  /** Digits followed by a non-digit: the run ends exactly where the digits end. */
  lemma {:induction false} RunEnds(t: string, u: string)
    requires forall i :: 0 <= i < |t| ==> '0' <= t[i] <= '9'
    requires u != [] && !('0' <= u[0] <= '9')
    ensures FirstNonDigit(t + u) == |t|
  {
    if t == [] {
      assert t + u == u;
    } else {
      assert (t + u)[0] == t[0] && (t + u)[1..] == t[1..] + u;
      RunEnds(t[1..], u);
    }
  }

  /** Equal texts with equal prefixes have equal remainders. */
  lemma DropPrefix(p: string, x: string, y: string)
    requires p + x == p + y
    ensures x == y
  {
    assert x == (p + x)[|p|..];
    assert y == (p + y)[|p|..];
  }

  /** A uuid's text followed by a non-digit can be read back: the digit run ends where
      the text ends, so only one uuid fits. */
  lemma DigitsThenSeparator(a: nat, b: nat, sa: string, sb: string)
    requires DecimalText(a) + sa == DecimalText(b) + sb
    requires sa != [] && sb != [] && !('0' <= sa[0] <= '9') && !('0' <= sb[0] <= '9')
    ensures a == b
  {
    var ta, tb := DecimalText(a), DecimalText(b);
    RunEnds(ta, sa);
    RunEnds(tb, sb);
    assert ta == (ta + sa)[..|ta|] == (tb + sb)[..|tb|] == tb;
    DecimalTextInjective(a, b);
  }

  /** Each "connected" line names exactly one session. */
  lemma ConnectedLineNamesOne(a: nat, b: nat)
    requires ConnectedLine(a) == ConnectedLine(b)
    ensures a == b
  {
    var x, y := DecimalText(a) + " has connected", DecimalText(b) + " has connected";
    assert ConnectedLine(a) == "#" + x && ConnectedLine(b) == "#" + y;
    DropPrefix("#", x, y);
    DigitsThenSeparator(a, b, " has connected", " has connected");
  }

  /** Each "disconnected" line names exactly one session, whatever the notices. */
  lemma DisconnectedLineNamesOne(a: nat, b: nat, na: string, nb: string)
    requires DisconnectedLine(a, na) == DisconnectedLine(b, nb)
    ensures a == b
  {
    var sa, sb := " has disconnected: " + na, " has disconnected: " + nb;
    var x, y := DecimalText(a) + sa, DecimalText(b) + sb;
    assert DisconnectedLine(a, na) == "#" + x && DisconnectedLine(b, nb) == "#" + y;
    DropPrefix("#", x, y);
    DigitsThenSeparator(a, b, sa, sb);
  }

  /** Each guest chat line names exactly one sender, whatever the messages. */
  lemma GuestLineNamesOne(a: nat, b: nat, ma: string, mb: string)
    requires GuestLine(a, ma) == GuestLine(b, mb)
    ensures a == b
  {
    var sa, sb := ": " + ma, ": " + mb;
    var x, y := DecimalText(a) + sa, DecimalText(b) + sb;
    assert GuestLine(a, ma) == "Guest " + x && GuestLine(b, mb) == "Guest " + y;
    DropPrefix("Guest ", x, y);
    DigitsThenSeparator(a, b, sa, sb);
  }

  /** The `entities` of an `addEntities`: every registered session, prepared or not,
      in registry order. */
  function Roster(reg: seq<nat>, sessions: map<nat, Session>): (r: seq<RosterEntry>)
    requires forall i :: 0 <= i < |reg| ==> reg[i] in sessions
    ensures |r| == |reg|
    ensures forall i :: 0 <= i < |reg| ==> r[i].uuid == reg[i] && r[i].entity.uuid == sessions[reg[i]].uuid
  {
    seq(|reg|, i requires 0 <= i < |reg| => RosterEntry(reg[i], ParseEntity(sessions[reg[i]])))
  }

  /** `clients.delete(uuid)`: the registry without one entry, in the same order. */
  function Without(reg: seq<nat>, gone: nat): (r: seq<nat>)
    ensures forall x :: x in r <==> x in reg && x != gone
    ensures |r| <= |reg|
    ensures gone !in reg ==> r == reg
  {
    if reg == [] then []
    else if reg[0] == gone then Without(reg[1..], gone)
    else [reg[0]] + Without(reg[1..], gone)
  }

  /** Deleting distributes over concatenation: `Without` is the registry filtered,
      each remaining entry in its old relative order. */
  lemma {:induction false} WithoutAppend(a: seq<nat>, b: seq<nat>, gone: nat)
    ensures Without(a + b, gone) == Without(a, gone) + Without(b, gone)
  {
    if a != [] {
      assert (a + b)[0] == a[0] && (a + b)[1..] == a[1..] + b;
      WithoutAppend(a[1..], b, gone);
    } else {
      assert a + b == b;
    }
  }

  /** Deleting an entry keeps a registry free of duplicates. */
  lemma {:induction false} WithoutDistinct(reg: seq<nat>, gone: nat)
    requires Distinct(reg)
    ensures Distinct(Without(reg, gone))
  {
    if reg != [] {
      var rest := reg[1..];
      assert Distinct(rest) by {
        forall i, j | 0 <= i < j < |rest| ensures rest[i] != rest[j] {
          assert rest[i] == reg[i + 1] && rest[j] == reg[j + 1];
        }
      }
      WithoutDistinct(rest, gone);
      if reg[0] != gone {
        var tail := Without(rest, gone);
        assert reg[0] !in rest by {
          forall k | 0 <= k < |rest| ensures rest[k] != reg[0] {
            assert rest[k] == reg[k + 1];
          }
        }
        var r := [reg[0]] + tail;
        forall i, j | 0 <= i < j < |r| ensures r[i] != r[j] {
          assert r[j] == tail[j - 1] && r[j] in tail;
          if i > 0 {
            assert r[i] == tail[i - 1];
          }
        }
      }
    }
  }

  /** What `kick` emits for a registered session, in order: the "disconnected" line to
      every registered session (the kicked one included), `kicked` to the session
      itself, and `removeEntity` to every prepared session (the kicked one included). */
  function KickNotices(reg: seq<nat>, sessions: map<nat, Session>, who: nat, reason: string, notice: string, now: int): (ds: seq<Delivery>)
    ensures Delivery(who, Kicked(now, reason)) in ds
    ensures |ds| <= 2 * |reg| + 1
  {
    Fanout(reg, sessions, [], ChatLineFor(now, DisconnectedLine(who, notice)), false)
      + [Delivery(who, Kicked(now, reason))]
      + Fanout(reg, sessions, [], RemoveEntityFor(now, who), true)
  }

  /** `kick` deletes the registry entry last: a registered session hears its own
      "disconnected" line and, when prepared, its own `removeEntity`. Every notice
      goes to a registered session, and the only `kicked` is the one to the session. */
  lemma {:induction false} KickNoticesReachTheKicked(reg: seq<nat>, sessions: map<nat, Session>, who: nat, reason: string, notice: string, now: int)
    requires who in reg
    ensures Delivery(who, ChatLine(now, who, DisconnectedLine(who, notice))) in KickNotices(reg, sessions, who, reason, notice, now)
    ensures who in sessions && sessions[who].hasPrepared ==>
      Delivery(who, RemoveEntity(now, who, who)) in KickNotices(reg, sessions, who, reason, notice, now)
    ensures forall d :: d in KickNotices(reg, sessions, who, reason, notice, now) ==> d.to in reg
    ensures forall d :: d in KickNotices(reg, sessions, who, reason, notice, now) && d.event.Kicked? ==>
      d == Delivery(who, Kicked(now, reason))
  {
    var line := ChatLineFor(now, DisconnectedLine(who, notice));
    var gone := RemoveEntityFor(now, who);
    FanoutReachesExactlyEligible(reg, sessions, [], line, false, Delivery(who, ChatLine(now, who, DisconnectedLine(who, notice))));
    FanoutReachesExactlyEligible(reg, sessions, [], gone, true, Delivery(who, RemoveEntity(now, who, who)));
    forall d | d in KickNotices(reg, sessions, who, reason, notice, now)
      ensures d.to in reg && (d.event.Kicked? ==> d == Delivery(who, Kicked(now, reason)))
    {
      FanoutReachesExactlyEligible(reg, sessions, [], line, false, d);
      FanoutReachesExactlyEligible(reg, sessions, [], gone, true, d);
    }
  }

  /** `broadcastMessage` reaches every registered session, prepared or not, each copy
      stamped with the recipient's own uuid. */
  lemma ChatReachesEveryRegistered(reg: seq<nat>, sessions: map<nat, Session>, now: int, msg: string, d: Delivery)
    ensures d in Fanout(reg, sessions, [], ChatLineFor(now, msg), false)
      <==> d.to in reg && d.event == ChatLine(now, d.to, msg)
  {
    FanoutReachesExactlyEligible(reg, sessions, [], ChatLineFor(now, msg), false, d);
  }

  /** The `updateEntity` fan-out of an accepted move goes to every prepared registered
      session, and only the mover's own copy carries the new key. */
  lemma OnlyMoverGetsNextKey(reg: seq<nat>, sessions: map<nat, Session>, now: int, e: EntityInfo, mover: nat, nonce: real, d: Delivery)
    ensures d in Fanout(reg, sessions, [], UpdateEntityFor(now, e, mover, Some(nonce)), true)
      <==> && d.to in reg && d.to in sessions && sessions[d.to].hasPrepared
           && d.event == UpdateEntity(now, e, d.to, if d.to == mover then Some(nonce) else None)
  {
    FanoutReachesExactlyEligible(reg, sessions, [], UpdateEntityFor(now, e, mover, Some(nonce)), true, d);
  }

  /** The `addEntities` fan-out of `ready2` goes to every prepared registered session
      and lists every registered session, prepared or not, in registry order. */
  lemma RosterReachesEveryPrepared(reg: seq<nat>, sessions: map<nat, Session>, now: int, d: Delivery)
    requires forall i :: 0 <= i < |reg| ==> reg[i] in sessions
    ensures d in Fanout(reg, sessions, [], AddEntitiesFor(now, Roster(reg, sessions)), true)
      <==> && d.to in reg && sessions[d.to].hasPrepared
           && d.event == AddEntities(now, d.to, Roster(reg, sessions))
    ensures |Roster(reg, sessions)| == |reg|
    ensures forall i :: 0 <= i < |reg| ==>
      Roster(reg, sessions)[i] == RosterEntry(reg[i], ParseEntity(sessions[reg[i]]))
  {
    FanoutReachesExactlyEligible(reg, sessions, [], AddEntitiesFor(now, Roster(reg, sessions)), true, d);
  }

  /** What the move handler did: nothing (no listener yet, or not registered), or the
      verdict of its two checks. */
  datatype MoveOutcome = Ignored | Judged(verdict: Verdict)

  class Server {
    /** `_client_id`: the last uuid handed out. */
    var nextId: nat
    /** The `clients` registry, in insertion order (the iteration order of a JavaScript `Map`). */
    var clients: seq<nat>
    /** Every `Client` constructed so far, registered or not, by uuid. */
    var sessions: map<nat, Session>
    /** The `chat` log. */
    var chat: seq<ChatEntry>
    /** Every event emitted so far, with the socket it was emitted on. */
    var outbox: seq<Delivery>

    ghost predicate Valid()
      reads this`nextId, this`clients, this`sessions
    {
      && (forall k :: k in sessions ==> 1 <= k <= nextId && sessions[k].uuid == k)
      && (forall i :: 0 <= i < |clients| ==> clients[i] in sessions)
      && Distinct(clients)
    }

    constructor ()
      ensures Valid()
      ensures nextId == 0 && clients == [] && sessions == map[] && chat == [] && outbox == []
    {
      nextId := 0;
      clients := [];
      sessions := map[];
      chat := [];
      outbox := [];
    }

    /** A socket connects: `new Client(socket)` takes `++_client_id`; `init` installs the
        `ready` and `pong` listeners and starts the timer. */
    method Connect() returns (uuid: nat)
      requires Valid()
      modifies this
      ensures Valid()
      ensures uuid == nextId == old(nextId) + 1
      ensures forall k :: k in old(sessions) ==> k < uuid
      ensures sessions == old(sessions)[uuid := NewSession(uuid)]
      ensures clients == old(clients) && chat == old(chat) && outbox == old(outbox)
    {
      nextId := nextId + 1;
      uuid := nextId;
      sessions := sessions[uuid := NewSession(uuid)];
    }

    /** The `clients.forEach` loop shared by both broadcasts. */
    method Emit(p: Payload, excluded: seq<nat>, onlyPrepared: bool)
      requires Valid()
      modifies this`outbox
      ensures Valid()
      ensures outbox == old(outbox) + Fanout(clients, sessions, excluded, p, onlyPrepared)
    {
      var i := 0;
      while i < |clients|
        invariant 0 <= i <= |clients|
        invariant outbox == old(outbox) + Fanout(clients[..i], sessions, excluded, p, onlyPrepared)
      {
        FanoutStep(clients, i, sessions, excluded, p, onlyPrepared);
        EmitTo(clients[i], p, excluded, onlyPrepared);
        i := i + 1;
      }
      assert clients[..|clients|] == clients;
    }

    /** The body of the `forEach`: one recipient's test and emit. */
    method EmitTo(x: nat, p: Payload, excluded: seq<nat>, onlyPrepared: bool)
      modifies this`outbox
      ensures outbox == old(outbox)
        + if Eligible(x, sessions, excluded, onlyPrepared) then [Delivery(x, Instantiate(p, x))] else []
    {
      if Eligible(x, sessions, excluded, onlyPrepared) {
        outbox := outbox + [Delivery(x, Instantiate(p, x))];
      }
    }

    /** `broadcastEmit(a, b, c)`. */
    method BroadcastEmit(p: Payload, excluded: seq<nat>)
      requires Valid()
      modifies this`outbox
      ensures Valid()
      ensures outbox == old(outbox) + Fanout(clients, sessions, excluded, p, true)
    {
      Emit(p, excluded, true);
    }

    /** `broadcastMessage(msg, c)`: log the line, then send it to every registered session. */
    method BroadcastMessage(msg: string, excluded: seq<nat>, now: int)
      requires Valid()
      modifies this`chat, this`outbox
      ensures Valid()
      ensures chat == old(chat) + [ChatEntry(now, msg)]
      ensures outbox == old(outbox) + Fanout(clients, sessions, excluded, ChatLineFor(now, msg), false)
    {
      chat := chat + [ChatEntry(now, msg)];
      Emit(ChatLineFor(now, msg), excluded, false);
    }

    /** The effect of `kick` on the registry, the log and the outbox. */
    twostate predicate KickEffects(who: nat, reason: string, notice: string, now: int)
      reads this
    {
      if who in old(clients) then
        && chat == old(chat) + [ChatEntry(now, DisconnectedLine(who, notice))]
        && outbox == old(outbox) + KickNotices(old(clients), old(sessions), who, reason, notice, now)
        && clients == Without(old(clients), who)
      else
        chat == old(chat) && outbox == old(outbox) && clients == old(clients)
    }

    /** `kick(reason, publicReason)`: a no-op for an unregistered session; otherwise the
        notices go out first and the registry entry is deleted last. */
    method Kick(who: nat, reason: string, notice: string, now: int)
      requires Valid() && who in sessions
      modifies this
      ensures Valid()
      ensures KickEffects(who, reason, notice, now)
      ensures sessions == old(sessions) && nextId == old(nextId)
    {
      if who !in clients {
        return;
      }
      Notify(who, reason, notice, now);
      Unregister(who);
    }

    /** The notices of `kick`, sent while the session is still registered: the chat
        line, the `kicked` event and the `removeEntity` broadcast. */
    method Notify(who: nat, reason: string, notice: string, now: int)
      requires Valid() && who in clients
      modifies this`chat, this`outbox
      ensures Valid()
      ensures chat == old(chat) + [ChatEntry(now, DisconnectedLine(who, notice))]
      ensures outbox == old(outbox) + KickNotices(clients, sessions, who, reason, notice, now)
    {
      ghost var before := outbox;
      ghost var line := Fanout(clients, sessions, [], ChatLineFor(now, DisconnectedLine(who, notice)), false);
      BroadcastMessage(DisconnectedLine(who, notice), [], now);
      outbox := outbox + [Delivery(who, Kicked(now, reason))];
      assert outbox == before + (line + [Delivery(who, Kicked(now, reason))]);
      BroadcastEmit(RemoveEntityFor(now, who), []);
    }

    /** `clients.delete(uuid)`. */
    method Unregister(who: nat)
      requires Valid()
      modifies this`clients
      ensures Valid()
      ensures clients == Without(old(clients), who)
    {
      ghost var before := clients;
      WithoutDistinct(clients, who);
      clients := Without(clients, who);
      forall i | 0 <= i < |clients| ensures clients[i] in sessions {
        assert clients[i] in before;
      }
    }

    /** The `ready` listener: register the session, leaving `hasPrepared` as it was,
        send it its uuid and the chat log as it stands, and install the `ready2`
        listener. */
    method OnReady(who: nat, now: int)
      requires Valid() && who in sessions
      modifies this
      ensures Valid()
      ensures clients == if who in old(clients) then old(clients) else old(clients) + [who]
      ensures sessions == old(sessions)[who := old(sessions)[who].(awaitsReady2 := true)]
      ensures outbox == old(outbox) + [Delivery(who, Open(now, who, old(chat)))]
      ensures chat == old(chat) && nextId == old(nextId)
    {
      if who !in clients {
        clients := clients + [who];
      }
      sessions := sessions[who := sessions[who].(awaitsReady2 := true)];
      outbox := outbox + [Delivery(who, Open(now, who, chat))];
    }

    /** A kicked session whose socket sends `ready` again: `kick` resets no flag and
        removes no listener, so the session is registered again with `hasPrepared`
        as it was. A session kicked after `ready2` is back, prepared, with no new
        `ready2`. */
    method ReadyAfterKick(who: nat, reason: string, notice: string, now: int, later: int)
      requires Valid() && who in sessions
      modifies this
      ensures Valid()
      ensures who in clients && sessions[who].hasPrepared == old(sessions[who].hasPrepared)
      ensures outbox != [] && outbox[|outbox| - 1] == Delivery(who, Open(later, who, chat))
    {
      Kick(who, reason, notice, now);
      OnReady(who, later);
    }

    /** The `ready2` listener: ignored before `ready` and for an unregistered session;
        otherwise the session becomes prepared, the "connected" line is broadcast, and
        every prepared session receives the roster of all registered sessions. */
    method OnReady2(who: nat, now: int)
      requires Valid() && who in sessions
      modifies this
      ensures Valid()
      ensures !old(sessions[who].awaitsReady2) || who !in old(clients) ==> unchanged(this)
      ensures old(sessions[who].awaitsReady2) && who in old(clients) ==>
        && sessions == old(sessions)[who := old(sessions[who]).(hasPrepared := true)]
        && clients == old(clients)
        && chat == old(chat) + [ChatEntry(now, ConnectedLine(who))]
        && outbox == old(outbox)
             + Fanout(clients, sessions, [], ChatLineFor(now, ConnectedLine(who)), false)
             + Fanout(clients, sessions, [], AddEntitiesFor(now, Roster(clients, sessions)), true)
      ensures nextId == old(nextId)
    {
      if !sessions[who].awaitsReady2 || who !in clients {
        return;
      }
      sessions := sessions[who := sessions[who].(hasPrepared := true)];
      ghost var logged := outbox;
      BroadcastMessage(ConnectedLine(who), [], now);
      ghost var announced := outbox;
      BroadcastEmit(AddEntitiesFor(now, Roster(clients, sessions)), []);
      assert outbox == logged + (announced[|logged|..]) + outbox[|announced|..];
    }

    /** The `disconnect` listener, present once the session is prepared. */
    method OnDisconnect(who: nat, now: int)
      requires Valid() && who in sessions
      modifies this
      ensures Valid()
      ensures !old(sessions[who].hasPrepared) ==> unchanged(this)
      ensures old(sessions[who].hasPrepared) ==> KickEffects(who, "", DisconnectNotice, now)
      ensures sessions == old(sessions) && nextId == old(nextId)
    {
      if !sessions[who].hasPrepared {
        return;
      }
      if who !in clients {
        return;
      }
      Kick(who, "", DisconnectNotice, now);
    }

    /** The `chat` listener, present once the session is prepared. */
    method OnChat(who: nat, message: string, now: int)
      requires Valid() && who in sessions
      modifies this
      ensures Valid()
      ensures !old(sessions[who].hasPrepared) || who !in old(clients) ==> unchanged(this)
      ensures old(sessions[who].hasPrepared) && who in old(clients) ==>
        && chat == old(chat) + [ChatEntry(now, GuestLine(who, message))]
        && outbox == old(outbox) + Fanout(clients, sessions, [], ChatLineFor(now, GuestLine(who, message)), false)
        && clients == old(clients)
      ensures sessions == old(sessions) && nextId == old(nextId)
    {
      if !sessions[who].hasPrepared || who !in clients {
        return;
      }
      BroadcastMessage(GuestLine(who, message), [], now);
    }

    /** The `move` listener, present once the session is prepared: the distance check,
        then the key check, then commit and fan-out. `nonce` is the value `Math.random()`
        returns for the next key. */
    method OnMove(who: nat, p: MovePacket, now: int, nonce: real) returns (o: MoveOutcome)
      requires Valid() && who in sessions
      modifies this
      ensures Valid()
      ensures o == Ignored <==> !old(sessions[who].hasPrepared) || who !in old(clients)
      ensures o == Ignored ==> unchanged(this)
      ensures o != Ignored ==> o == Judged(Judge(old(sessions[who]), p))
      ensures o == Judged(IllegalMove) ==>
        KickEffects(who, IllegalMoveReason, DisconnectNotice, now) && sessions == old(sessions)
      ensures o == Judged(UnauthorizedMove) ==>
        KickEffects(who, UnauthorizedMoveReason, DisconnectNotice, now) && sessions == old(sessions)
      ensures o == Judged(Accepted) ==>
        && sessions == old(sessions)[who := Commit(old(sessions[who]), p, nonce)]
        && clients == old(clients)
        && chat == old(chat)
        && outbox == old(outbox) + Fanout(clients, sessions, [], UpdateEntityFor(now, ParseEntity(sessions[who]), who, Some(nonce)), true)
      ensures nextId == old(nextId)
    {
      var s := sessions[who];
      if !s.hasPrepared || who !in clients {
        return Ignored;
      }
      if TooFar(s.position, p.position) {
        Kick(who, IllegalMoveReason, DisconnectNotice, now);
        return Judged(IllegalMove);
      }
      if Unauthorized(s.moveKey, p.key) {
        Kick(who, UnauthorizedMoveReason, DisconnectNotice, now);
        return Judged(UnauthorizedMove);
      }
      sessions := sessions[who := Commit(s, p, nonce)];
      BroadcastEmit(UpdateEntityFor(now, ParseEntity(sessions[who]), who, Some(nonce)), []);
      return Judged(Accepted);
    }

    /** The `pong` listener, installed by `init`. */
    method OnPong(who: nat)
      requires Valid() && who in sessions
      modifies this
      ensures Valid()
      ensures sessions == old(sessions)[who := old(sessions[who]).(hasPing := false)]
      ensures clients == old(clients) && chat == old(chat) && outbox == old(outbox) && nextId == old(nextId)
    {
      sessions := sessions[who := sessions[who].(hasPing := false)];
    }

    /** One run of the keepalive timer body. The timer is never cleared, so it also
        runs for a session that was kicked or never sent `ready`. */
    method Tick(who: nat, now: int)
      requires Valid() && who in sessions
      modifies this
      ensures Valid()
      ensures !old(sessions[who].hasPrepared) ==>
        KickEffects(who, LoginTimeoutReason, LoginTimeoutNotice, now) && sessions == old(sessions)
      ensures old(sessions[who].hasPrepared) && old(sessions[who].hasPing) ==>
        KickEffects(who, PingTimeoutReason, PingTimeoutNotice, now) && sessions == old(sessions)
      ensures old(sessions[who].hasPrepared) && !old(sessions[who].hasPing) ==>
        && sessions == old(sessions)[who := old(sessions[who]).(hasPing := true)]
        && outbox == old(outbox) + [Delivery(who, Ping(now))]
        && clients == old(clients) && chat == old(chat)
      ensures nextId == old(nextId)
    {
      var s := sessions[who];
      if !s.hasPrepared {
        Kick(who, LoginTimeoutReason, LoginTimeoutNotice, now);
        return;
      }
      if s.hasPing {
        Kick(who, PingTimeoutReason, PingTimeoutNotice, now);
        return;
      }
      sessions := sessions[who := s.(hasPing := true)];
      outbox := outbox + [Delivery(who, Ping(now))];
    }
  }
}
