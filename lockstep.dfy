/** One browser client connected to the session server over an in-order socket, with
    any number of other sessions acting at the same time. The server's held `moveKey`
    for the client and the client's own `moveKey` move in lock step, so the server
    never rejects the client's move as unauthorized. */
module LockStep {
  import opened Wire
  import opened Sessions
  import opened Broadcast
  import opened GameServer
  import opened GameClient

  /** A delivery the client reads as the grant of a new key: an `updateEntity` on the
      socket of `me` whose recipient uuid equals the entity's uuid. */
  predicate IsGrant(d: Delivery, me: nat) {
    d.to == me && d.event.UpdateEntity? && d.event.uuid == d.event.entity.uuid
  }

  /** The keys granted to `me` by a stretch of the outbox, in order. */
  function Grants(ds: seq<Delivery>, me: nat): seq<Key> {
    if ds == [] then []
    else (if IsGrant(ds[0], me) then [ds[0].event.nextKey] else []) + Grants(ds[1..], me)
  }

  lemma {:induction false} GrantsAppend(a: seq<Delivery>, b: seq<Delivery>, me: nat)
    ensures Grants(a + b, me) == Grants(a, me) + Grants(b, me)
  {
    if a == [] {
      assert a + b == b;
    } else {
      var ab := a + b;
      assert ab[0] == a[0] && ab[1..] == a[1..] + b;
      var head := if IsGrant(a[0], me) then [a[0].event.nextKey] else [];
      assert Grants(ab, me) == head + Grants(a[1..] + b, me);
      GrantsAppend(a[1..], b, me);
      assert Grants(a, me) == head + Grants(a[1..], me);
    }
  }

  /** The grants to `me` in an outbox that has grown, read from position `from`. */
  lemma GrantsAfterGrowth(before: seq<Delivery>, after: seq<Delivery>, from: nat, me: nat)
    requires from <= |before| <= |after| && after[..|before|] == before
    ensures Grants(after[from..], me) == Grants(before[from..], me) + Grants(after[|before|..], me)
  {
    assert after[from..] == before[from..] + after[|before|..];
    GrantsAppend(before[from..], after[|before|..], me);
  }

  /** A broadcast grants `me` a key only when it is an `updateEntity` about `me`
      itself and `me` is among its recipients; the key is then the mover's `nextKey`. */
  lemma {:induction false} GrantsOfFanout(reg: seq<nat>, sessions: map<nat, Session>, excluded: seq<nat>, p: Payload, onlyPrepared: bool, me: nat)
    requires Distinct(reg) && !p.Fixed?
    ensures Grants(Fanout(reg, sessions, excluded, p, onlyPrepared), me)
      == if p.UpdateEntityFor? && p.entity.uuid == me && me in reg && Eligible(me, sessions, excluded, onlyPrepared)
         then [if me == p.mover then p.nextKey else None] else []
  {
    if reg != [] {
      var init, x := reg[..|reg| - 1], reg[|reg| - 1];
      DistinctInit(reg);
      GrantsOfFanout(init, sessions, excluded, p, onlyPrepared, me);
      var tail := if Eligible(x, sessions, excluded, onlyPrepared) then [Delivery(x, Instantiate(p, x))] else [];
      GrantsAppend(Fanout(init, sessions, excluded, p, onlyPrepared), tail, me);
      assert reg == init + [x];
      assert (me in reg) == (me in init || me == x);
      if tail != [] {
        GrantsOfOne(x, p, me);
      } else {
        assert Grants(tail, me) == [];
      }
    }
  }

  /** The copy of a per-recipient broadcast sent to `x` grants `me` a key exactly when
      it is `me`'s copy of an `updateEntity` about `me`. */
  lemma GrantsOfOne(x: nat, p: Payload, me: nat)
    requires !p.Fixed?
    ensures Grants([Delivery(x, Instantiate(p, x))], me)
      == if p.UpdateEntityFor? && p.entity.uuid == me && x == me then [if me == p.mover then p.nextKey else None] else []
  {
    var ds := [Delivery(x, Instantiate(p, x))];
    assert ds[1..] == [];
  }

  /** `kick` grants no key to anyone. */
  lemma KickGrantsNothing(reg: seq<nat>, sessions: map<nat, Session>, who: nat, reason: string, notice: string, now: int, me: nat)
    requires Distinct(reg)
    ensures Grants(KickNotices(reg, sessions, who, reason, notice, now), me) == []
  {
    var first := Fanout(reg, sessions, [], ChatLineFor(now, DisconnectedLine(who, notice)), false);
    var last := Fanout(reg, sessions, [], RemoveEntityFor(now, who), true);
    var kicked := [Delivery(who, Kicked(now, reason))];
    GrantsOfFanout(reg, sessions, [], ChatLineFor(now, DisconnectedLine(who, notice)), false, me);
    GrantsOfFanout(reg, sessions, [], RemoveEntityFor(now, who), true, me);
    GrantsAppend(first, kicked, me);
    GrantsAppend(first + kicked, last, me);
    assert kicked[1..] == [];
  }

  /** Reading the outbox from `from` begins with the grant, if any, of its first delivery. */
  lemma GrantsOfHead(ds: seq<Delivery>, from: nat, me: nat)
    requires from < |ds|
    ensures Grants(ds[from..], me)
      == (if IsGrant(ds[from], me) then [ds[from].event.nextKey] else []) + Grants(ds[from + 1..], me)
    ensures !IsGrant(ds[from], me) ==> Grants(ds[from..], me) == Grants(ds[from + 1..], me)
  {
    assert ds[from..][0] == ds[from] && ds[from..][1..] == ds[from + 1..];
  }

  /** The "connected" line and the roster sent on `ready2` grant no key to anyone. */
  lemma Ready2GrantsNothing(reg: seq<nat>, sessions: map<nat, Session>, who: nat, now: int, me: nat)
    requires Distinct(reg) && forall i :: 0 <= i < |reg| ==> reg[i] in sessions
    ensures Grants(Fanout(reg, sessions, [], ChatLineFor(now, ConnectedLine(who)), false)
                   + Fanout(reg, sessions, [], AddEntitiesFor(now, Roster(reg, sessions)), true), me) == []
  {
    var announce := Fanout(reg, sessions, [], ChatLineFor(now, ConnectedLine(who)), false);
    var roster := Fanout(reg, sessions, [], AddEntitiesFor(now, Roster(reg, sessions)), true);
    GrantsOfFanout(reg, sessions, [], ChatLineFor(now, ConnectedLine(who)), false, me);
    GrantsOfFanout(reg, sessions, [], AddEntitiesFor(now, Roster(reg, sessions)), true, me);
    GrantsAppend(announce, roster, me);
  }

  /** The keys carried by a stretch of client messages, in order. */
  function MoveKeys(ms: seq<Inbound>): seq<Key> {
    if ms == [] then []
    else (if ms[0].Move? then [ms[0].packet.key] else []) + MoveKeys(ms[1..])
  }

  lemma {:induction false} MoveKeysAppend(a: seq<Inbound>, b: seq<Inbound>)
    ensures MoveKeys(a + b) == MoveKeys(a) + MoveKeys(b)
  {
    if a == [] {
      assert a + b == b;
    } else {
      var ab := a + b;
      assert ab[0] == a[0] && ab[1..] == a[1..] + b;
      var head := if a[0].Move? then [a[0].packet.key] else [];
      assert MoveKeys(ab) == head + MoveKeys(a[1..] + b);
      MoveKeysAppend(a[1..], b);
      assert MoveKeys(a) == head + MoveKeys(a[1..]);
    }
  }

  function Token(ck: Key): nat {
    if Truthy(ck) then 1 else 0
  }

  /** The lock-step invariant between the server's `held` key for the client, the
      client's own key `ck` and `first` (`isFirstMove`), the keys of the moves still
      travelling to the server and the keys granted but not yet read: before the
      first move nothing is held anywhere; afterwards at most one of them is live;
      every travelling move carries exactly `held`; every unread grant and every
      truthy client key is `held`. */
  predicate KeyDiscipline(held: Key, ck: Key, first: bool, moves: seq<Key>, grants: seq<Key>) {
    && (first ==> held == None && ck == None && moves == [] && grants == [])
    && |moves| + |grants| + Token(ck) <= 1
    && (forall i :: 0 <= i < |moves| ==> moves[i] == held)
    && (forall i :: 0 <= i < |grants| ==> grants[i] == held)
    && (Truthy(ck) ==> ck == held)
  }

  /** `broadcastMovement` may send (it holds a key, or it has never sent); the move
      carries its key and the client keeps none. */
  lemma SendKeepsDiscipline(held: Key, ck: Key, first: bool, moves: seq<Key>, grants: seq<Key>)
    requires KeyDiscipline(held, ck, first, moves, grants)
    requires Truthy(ck) || first
    ensures KeyDiscipline(held, None, false, moves + [ck], grants)
  {
  }

  /** The server's move handler: the move at the head of the channel carries the held
      key, so it passes the key check; accepting it replaces the held key with `nonce`
      and grants `nonce`. */
  lemma AcceptKeepsDiscipline(held: Key, ck: Key, first: bool, k: Key, moves: seq<Key>, grants: seq<Key>, nonce: real)
    requires KeyDiscipline(held, ck, first, [k] + moves, grants)
    ensures k == held && !Unauthorized(held, k)
    ensures KeyDiscipline(Some(nonce), ck, first, moves, grants + [Some(nonce)])
  {
    assert ([k] + moves)[0] == k;
    assert moves == [] && grants == [];
  }

  /** A move the server does not accept (ignored, or kicked for distance) is gone. */
  lemma DropKeepsDiscipline(held: Key, ck: Key, first: bool, k: Key, moves: seq<Key>, grants: seq<Key>)
    requires KeyDiscipline(held, ck, first, [k] + moves, grants)
    ensures KeyDiscipline(held, ck, first, moves, grants)
  {
  }

  /** The client reads a grant: a truthy key is stored, any other is ignored. */
  lemma GrantKeepsDiscipline(held: Key, ck: Key, first: bool, moves: seq<Key>, g: Key, grants: seq<Key>)
    requires KeyDiscipline(held, ck, first, moves, [g] + grants)
    ensures KeyDiscipline(held, if Truthy(g) then g else ck, first, moves, grants)
  {
    assert ([g] + grants)[0] == g;
    assert moves == [] && grants == [] && !Truthy(ck);
  }

  /** The server, the client, and the two directions of its socket: the server has
      processed the first `upDone` messages the client emitted, and the client has
      read the outbox up to `downDone` (skipping what went to other sockets). */
  class Link {
    const server: Server
    const player: Player
    const me: nat
    var upDone: nat
    var downDone: nat

    ghost predicate Inv()
      reads this, server, player
    {
      && server.Valid()
      && me in server.sessions
      && upDone <= |player.sent|
      && downDone <= |server.outbox|
      && player.Table()
      && KeyDiscipline(server.sessions[me].moveKey, player.moveKey, player.isFirstMove,
           MoveKeys(player.sent[upDone..]), Grants(server.outbox[downDone..], me))
    }

    /** A new browser client connects to a running server and calls `player.init()`. */
    constructor (s: Server)
      requires s.Valid()
      modifies s
      ensures Inv() && server == s
    {
      var id := s.Connect();
      var p := new Player();
      p.Start();
      server := s;
      player := p;
      me := id;
      upDone := 0;
      downDone := |s.outbox|;
      new;
      assert player.sent == [Ready];
      assert player.sent[1..] == [];
    }

    /** What one server step did to the outbox and to the key the server holds for
        the client: the outbox only grew, and only the client's own accepted move
        granted it a key and changed the held key. */
    twostate predicate Stepped(who: nat, o: MoveOutcome, nonce: real)
      reads this, server
    {
      && me in old(server.sessions)
      && server.Valid() && me in server.sessions
      && |old(server.outbox)| <= |server.outbox|
      && server.outbox[..|old(server.outbox)|] == old(server.outbox)
      && Grants(server.outbox[|old(server.outbox)|..], me)
           == (if who == me && o == Judged(Accepted) then [Some(nonce)] else [])
      && server.sessions[me].moveKey
           == (if who == me && o == Judged(Accepted) then Some(nonce) else old(server.sessions[me].moveKey))
    }

    /** The socket dispatch on the server side: message `msg` from session `who` runs
        the matching listener. */
    method Serve(who: nat, msg: Inbound, now: int, nonce: real) returns (o: MoveOutcome)
      requires server.Valid() && who in server.sessions && me in server.sessions
      modifies server
      ensures Stepped(who, o, nonce)
      ensures o != Ignored ==> msg.Move? && o == Judged(Judge(old(server.sessions[who]), msg.packet))
    {
      o := Ignored;
      match msg
      case Ready => ServeReady(who, now);
      case Ready2 => ServeReady2(who, now);
      case Disconnect => ServeDisconnect(who, now);
      case Chat(m) => ServeChat(who, m, now);
      case Move(p) => o := ServeMove(who, p, now, nonce);
      case Pong =>
        server.OnPong(who);
        assert server.outbox[|old(server.outbox)|..] == [];
    }

    method ServeReady(who: nat, now: int)
      requires server.Valid() && who in server.sessions && me in server.sessions
      modifies server
      ensures Stepped(who, Ignored, 0.0)
    {
      server.OnReady(who, now);
      assert server.outbox[|old(server.outbox)|..] == [Delivery(who, Open(now, who, server.chat))];
    }

    method ServeReady2(who: nat, now: int)
      requires server.Valid() && who in server.sessions && me in server.sessions
      modifies server
      ensures Stepped(who, Ignored, 0.0)
    {
      ghost var before := server.outbox;
      ghost var go := server.sessions[who].awaitsReady2 && who in server.clients;
      server.OnReady2(who, now);
      if go {
        var announce := Fanout(server.clients, server.sessions, [], ChatLineFor(now, ConnectedLine(who)), false);
        var roster := Fanout(server.clients, server.sessions, [], AddEntitiesFor(now, Roster(server.clients, server.sessions)), true);
        assert server.outbox[|before|..] == announce + roster;
        Ready2GrantsNothing(server.clients, server.sessions, who, now, me);
      } else {
        assert server.outbox[|before|..] == [];
      }
    }

    method ServeDisconnect(who: nat, now: int)
      requires server.Valid() && who in server.sessions && me in server.sessions
      modifies server
      ensures Stepped(who, Ignored, 0.0)
    {
      ghost var before := server.outbox;
      ghost var reg := server.clients;
      ghost var sessions := server.sessions;
      server.OnDisconnect(who, now);
      if sessions[who].hasPrepared {
        KickedGrantsNothing(before, reg, sessions, who, "", DisconnectNotice, now);
      } else {
        assert server.outbox[|before|..] == [];
      }
    }

    method ServeChat(who: nat, m: string, now: int)
      requires server.Valid() && who in server.sessions && me in server.sessions
      modifies server
      ensures Stepped(who, Ignored, 0.0)
    {
      ghost var before := server.outbox;
      ghost var reg := server.clients;
      ghost var sessions := server.sessions;
      server.OnChat(who, m, now);
      if sessions[who].hasPrepared && who in reg {
        assert server.outbox[|before|..] == Fanout(reg, sessions, [], ChatLineFor(now, GuestLine(who, m)), false);
        GrantsOfFanout(reg, sessions, [], ChatLineFor(now, GuestLine(who, m)), false, me);
      } else {
        assert server.outbox[|before|..] == [];
      }
    }

    method ServeMove(who: nat, p: MovePacket, now: int, nonce: real) returns (o: MoveOutcome)
      requires server.Valid() && who in server.sessions && me in server.sessions
      modifies server
      ensures Stepped(who, o, nonce)
      ensures o != Ignored ==> o == Judged(Judge(old(server.sessions[who]), p))
    {
      ghost var before := server.outbox;
      ghost var reg := server.clients;
      ghost var sessions := server.sessions;
      o := server.OnMove(who, p, now, nonce);
      if o == Judged(IllegalMove) {
        KickedGrantsNothing(before, reg, sessions, who, IllegalMoveReason, DisconnectNotice, now);
      } else if o == Judged(UnauthorizedMove) {
        KickedGrantsNothing(before, reg, sessions, who, UnauthorizedMoveReason, DisconnectNotice, now);
      } else if o == Judged(Accepted) {
        var update := UpdateEntityFor(now, ParseEntity(server.sessions[who]), who, Some(nonce));
        assert server.outbox[|before|..] == Fanout(server.clients, server.sessions, [], update, true);
        GrantsOfFanout(server.clients, server.sessions, [], update, true, me);
      } else {
        assert server.outbox[|before|..] == [];
      }
    }

    /** The grants of whatever a `kick` appended. */
    lemma KickedGrantsNothing(before: seq<Delivery>, reg: seq<nat>, sessions: map<nat, Session>, who: nat, reason: string, notice: string, now: int)
      requires Distinct(reg)
      requires |before| <= |server.outbox| && server.outbox[..|before|] == before
      requires who in reg ==> server.outbox == before + KickNotices(reg, sessions, who, reason, notice, now)
      requires who !in reg ==> server.outbox == before
      ensures Grants(server.outbox[|before|..], me) == []
    {
      if who in reg {
        assert server.outbox[|before|..] == KickNotices(reg, sessions, who, reason, notice, now);
        KickGrantsNothing(reg, sessions, who, reason, notice, now, me);
      } else {
        assert server.outbox[|before|..] == [];
      }
    }

    /** The next message on the client's socket reaches the server. The server never
        rejects it as unauthorized. */
    method ServerReceive(now: int, nonce: real) returns (o: MoveOutcome)
      requires Inv() && upDone < |player.sent|
      modifies this, server
      ensures Inv()
      ensures o != Judged(UnauthorizedMove)
      ensures old(player.sent[upDone]).Move? ==> old(player.sent[upDone]).packet.key == old(server.sessions[me].moveKey)
    {
      var msg := player.sent[upDone];
      ghost var held := server.sessions[me].moveKey;
      ghost var rest := player.sent[upDone + 1..];
      ghost var grants := Grants(server.outbox[downDone..], me);
      ghost var before := server.outbox;
      assert player.sent[upDone..] == [msg] + rest;
      upDone := upDone + 1;
      o := Serve(me, msg, now, nonce);
      GrantsAfterGrowth(before, server.outbox, downDone, me);
      if msg.Move? {
        assert MoveKeys([msg] + rest) == [msg.packet.key] + MoveKeys(rest);
        AcceptKeepsDiscipline(held, player.moveKey, player.isFirstMove, msg.packet.key, MoveKeys(rest), grants, nonce);
        if o != Judged(Accepted) {
          DropKeepsDiscipline(held, player.moveKey, player.isFirstMove, msg.packet.key, MoveKeys(rest), grants);
        }
      } else {
        assert MoveKeys([msg] + rest) == MoveKeys(rest);
      }
    }

    /** Another session `who` sends `msg`. */
    method PeerSend(who: nat, msg: Inbound, now: int, nonce: real) returns (o: MoveOutcome)
      requires Inv() && who != me && who in server.sessions
      modifies server
      ensures Inv()
    {
      ghost var before := server.outbox;
      o := Serve(who, msg, now, nonce);
      GrantsAfterGrowth(before, server.outbox, downDone, me);
    }

    /** The transport reports that the client's socket closed. */
    method ClientVanishes(now: int)
      requires Inv()
      modifies server
      ensures Inv()
    {
      ghost var before := server.outbox;
      var o := Serve(me, Disconnect, now, 0.0);
      GrantsAfterGrowth(before, server.outbox, downDone, me);
    }

    /** Another socket connects. */
    method PeerConnect() returns (uuid: nat)
      requires Inv()
      modifies server
      ensures Inv() && uuid != me
    {
      ghost var before := server.outbox;
      uuid := server.Connect();
      assert server.outbox[downDone..] == before[downDone..];
    }

    /** The keepalive timer of session `who` fires. */
    method ServerTick(who: nat, now: int)
      requires Inv() && who in server.sessions
      modifies server
      ensures Inv()
    {
      ghost var before := server.outbox;
      ghost var reg := server.clients;
      ghost var sessions := server.sessions;
      server.Tick(who, now);
      if !sessions[who].hasPrepared {
        KickedGrantsNothing(before, reg, sessions, who, LoginTimeoutReason, LoginTimeoutNotice, now);
      } else if sessions[who].hasPing {
        KickedGrantsNothing(before, reg, sessions, who, PingTimeoutReason, PingTimeoutNotice, now);
      } else {
        assert server.outbox[|before|..] == [Delivery(who, Ping(now))];
      }
      GrantsAfterGrowth(before, server.outbox, downDone, me);
    }

    /** Input and physics change the player's pose. */
    method ClientSteer(position: Vec3, yaw: real, pitch: real, headYaw: real, actionId: int)
      requires Inv()
      modifies player
      ensures Inv()
    {
      player.Steer(position, yaw, pitch, headYaw, actionId);
    }

    /** The player types a chat line and presses Enter. */
    method ClientChat(message: string)
      requires Inv()
      modifies player
      ensures Inv()
    {
      ghost var sent := player.sent;
      player.SendChat(message);
      NoMoveAppended(sent, Chat(message));
    }

    /** The render loop calls `broadcastMovement`. */
    method ClientMove() returns (moved: bool)
      requires Inv()
      modifies player
      ensures Inv()
    {
      ghost var before := player.sent;
      ghost var ck := player.moveKey;
      ghost var first := player.isFirstMove;
      moved := player.BroadcastMovement();
      if moved {
        var m := player.sent[|before|];
        assert player.sent[upDone..] == before[upDone..] + [m];
        MoveKeysAppend(before[upDone..], [m]);
        assert [m][1..] == [];
        SendKeepsDiscipline(server.sessions[me].moveKey, ck, first, MoveKeys(before[upDone..]), Grants(server.outbox[downDone..], me));
      }
    }

    /** The next delivery in the outbox: the client handles it when it was emitted on
        its socket. */
    method ClientReceive()
      requires Inv() && downDone < |server.outbox|
      modifies this, player
      ensures Inv()
    {
      var d := server.outbox[downDone];
      ghost var rest := server.outbox[downDone + 1..];
      ghost var sent := player.sent;
      GrantsOfHead(server.outbox, downDone, me);
      downDone := downDone + 1;
      if d.to != me {
        return;
      }
      match d.event
      case Open(_, u, _) =>
        player.OnOpen(u);
        NoMoveAppended(sent, Ready2);
      case AddEntities(_, _, roster) =>
        player.OnAddEntities(roster);
      case UpdateEntity(_, e, u, k) =>
        player.OnUpdateEntity(u, e, k);
        if u == e.uuid {
          GrantKeepsDiscipline(server.sessions[me].moveKey, old(player.moveKey), player.isFirstMove,
            MoveKeys(player.sent[upDone..]), k, Grants(rest, me));
        }
      case ChatLine(_, _, _) =>
      case Ping(_) =>
        player.OnPing();
        NoMoveAppended(sent, Pong);
      case Kicked(_, _) =>
        player.OnKicked();
      case RemoveEntity(_, _, gone) =>
        player.OnRemoveEntity(gone);
    }

    /** A reply that is not a move leaves the keys in flight as they were. */
    lemma NoMoveAppended(sent: seq<Inbound>, reply: Inbound)
      requires !reply.Move? && upDone <= |sent| && player.sent == sent + [reply]
      ensures MoveKeys(player.sent[upDone..]) == MoveKeys(sent[upDone..])
    {
      assert player.sent[upDone..] == sent[upDone..] + [reply];
      MoveKeysAppend(sent[upDone..], [reply]);
      assert [reply][1..] == [];
    }
  }
}
