/** The fan-out of `broadcastEmit` and `broadcastMessage`: which registered
    sessions an event goes to, and what each of them receives. */
module Broadcast {
  import opened Wire
  import opened Sessions

  predicate Distinct(s: seq<nat>) {
    forall i, j :: 0 <= i < j < |s| ==> s[i] != s[j]
  }

  /** Splitting the last entry off a registry without duplicates. */
  lemma DistinctInit(reg: seq<nat>)
    requires Distinct(reg) && reg != []
    ensures Distinct(reg[..|reg| - 1])
    ensures reg[|reg| - 1] !in reg[..|reg| - 1]
  {
  }

  /** The payload argument `b` of a broadcast. The source passes a function of the
      recipient's uuid; each of those functions is one constructor here. `Fixed` is
      the case where `b` is not a function and goes out as it is. */
  datatype Payload =
    | Fixed(event: Event)
    | AddEntitiesFor(time: int, entities: seq<RosterEntry>)
    | UpdateEntityFor(time: int, entity: EntityInfo, mover: nat, nextKey: Key)
    | RemoveEntityFor(time: int, gone: nat)
    | ChatLineFor(time: int, message: string)

  /** An event that names recipient `x` as its `uuid`. */
  predicate AddressedTo(e: Event, x: nat) {
    (e.AddEntities? || e.UpdateEntity? || e.ChatLine? || e.RemoveEntity?) && e.uuid == x
  }

  /** `typeof b === "string" ? b : b(x)` for recipient `x`. Only the mover's own copy
      of an `updateEntity` carries `nextKey`; `sendMessage` stamps the chat line with
      the recipient's uuid. */
  function Instantiate(p: Payload, x: nat): (e: Event)
    ensures p.Fixed? ==> e == p.event
    ensures !p.Fixed? ==> AddressedTo(e, x)
    ensures p.UpdateEntityFor? && x != p.mover ==> e.UpdateEntity? && e.nextKey == None
  {
    match p
    case Fixed(e) => e
    case AddEntitiesFor(t, es) => AddEntities(t, x, es)
    case UpdateEntityFor(t, e, m, k) => UpdateEntity(t, e, x, if x == m then k else None)
    case RemoveEntityFor(t, g) => RemoveEntity(t, x, g)
    case ChatLineFor(t, msg) => ChatLine(t, x, msg)
  }

  /** The recipient filter: not in the exclusion list (or the list is empty) and, for
      `broadcastEmit` (`onlyPrepared`), prepared. `broadcastMessage` does not look at
      `hasPrepared`. */
  predicate Eligible(x: nat, sessions: map<nat, Session>, excluded: seq<nat>, onlyPrepared: bool)
    ensures |excluded| == 0 && !onlyPrepared ==> Eligible(x, sessions, excluded, onlyPrepared)
    ensures x in excluded && |excluded| > 0 ==> !Eligible(x, sessions, excluded, onlyPrepared)
  {
    && (x !in excluded || |excluded| == 0)
    && (onlyPrepared ==> x in sessions && sessions[x].hasPrepared)
  }

  /** The deliveries of one pass over the registry `reg`, in registry order. */
  function Fanout(reg: seq<nat>, sessions: map<nat, Session>, excluded: seq<nat>, p: Payload, onlyPrepared: bool): (ds: seq<Delivery>)
    ensures |ds| <= |reg|
  {
    if reg == [] then []
    else
      var x := reg[|reg| - 1];
      Fanout(reg[..|reg| - 1], sessions, excluded, p, onlyPrepared)
        + (if Eligible(x, sessions, excluded, onlyPrepared) then [Delivery(x, Instantiate(p, x))] else [])
  }

  /** One more registry entry adds at most its own delivery at the end. */
  lemma FanoutStep(reg: seq<nat>, i: nat, sessions: map<nat, Session>, excluded: seq<nat>, p: Payload, onlyPrepared: bool)
    requires i < |reg|
    ensures Fanout(reg[..i + 1], sessions, excluded, p, onlyPrepared)
      == Fanout(reg[..i], sessions, excluded, p, onlyPrepared)
         + (if Eligible(reg[i], sessions, excluded, onlyPrepared) then [Delivery(reg[i], Instantiate(p, reg[i]))] else [])
  {
    assert reg[..i + 1][..i] == reg[..i];
  }

  /** A broadcast reaches exactly the eligible registered sessions, and each of them
      receives the payload instantiated for itself. */
  lemma {:induction false} FanoutReachesExactlyEligible(reg: seq<nat>, sessions: map<nat, Session>, excluded: seq<nat>, p: Payload, onlyPrepared: bool, d: Delivery)
    ensures d in Fanout(reg, sessions, excluded, p, onlyPrepared)
        <==> d.to in reg && Eligible(d.to, sessions, excluded, onlyPrepared) && d.event == Instantiate(p, d.to)
  {
    if reg != [] {
      var init := reg[..|reg| - 1];
      FanoutReachesExactlyEligible(init, sessions, excluded, p, onlyPrepared, d);
      assert reg == init + [reg[|reg| - 1]];
    }
  }

  predicate OncePerRecipient(ds: seq<Delivery>) {
    forall i, j :: 0 <= i < j < |ds| ==> ds[i].to != ds[j].to
  }

  /** Over a registry without duplicates, no session receives the same broadcast twice. */
  lemma {:induction false} FanoutOncePerRecipient(reg: seq<nat>, sessions: map<nat, Session>, excluded: seq<nat>, p: Payload, onlyPrepared: bool)
    requires Distinct(reg)
    ensures OncePerRecipient(Fanout(reg, sessions, excluded, p, onlyPrepared))
  {
    if reg != [] {
      var init := reg[..|reg| - 1];
      var x := reg[|reg| - 1];
      var head := Fanout(init, sessions, excluded, p, onlyPrepared);
      var ds := Fanout(reg, sessions, excluded, p, onlyPrepared);
      DistinctInit(reg);
      FanoutOncePerRecipient(init, sessions, excluded, p, onlyPrepared);
      if Eligible(x, sessions, excluded, onlyPrepared) {
        assert ds == head + [Delivery(x, Instantiate(p, x))];
        forall i, j | 0 <= i < j < |ds|
          ensures ds[i].to != ds[j].to
        {
          if j == |head| {
            assert ds[i] == head[i] && ds[i] in head;
            FanoutReachesExactlyEligible(init, sessions, excluded, p, onlyPrepared, ds[i]);
          } else {
            assert ds[i] == head[i] && ds[j] == head[j];
          }
        }
      } else {
        assert ds == head;
      }
    }
  }
}
