/** The server: one shared record, the registry of connected sockets and their
    names, and the broadcast that pushes the record to every open socket. */
module Server {
  import opened Shared

  /** A socket, identified by an opaque number. */
  type ClientId = nat

  /** The name a socket has until it says `hello`. */
  const Sentinel := "unknown"

  /** An upstream message after parsing. `Hello(None)` is a `hello` whose
      `payload.name` is missing or falsy; `Hello(Some(n))` carries `String(name)`
      of a truthy name. `Select(None)` is a `select` whose payload is null.
      `Unknown` is any other action string; `Malformed` is text that does not
      parse (or parses to null, so that the envelope cannot be destructured). */
  datatype Msg =
    | Hello(name: Option<string>)
    | Select(option: Option<string>)
    | Done(entry: string)
    | Lock
    | Reset
    | Unknown(action: string)
    | Malformed

  /** `Unknown` stands only for action strings the handler has no branch for. */
  predicate WellFormed(m: Msg)
  {
    m.Unknown? ==> m.action !in {"hello", "select", "done", "lock", "reset"}
  }

  /** The actions that change the record. */
  predicate Handled(m: Msg)
  {
    m.Select? || m.Done? || m.Lock? || m.Reset?
  }

  /** A `hello` that renames the socket and returns before the broadcast. */
  predicate Registers(m: Msg)
  {
    m.Hello? && m.name.Some?
  }

  /** The name the handler resolves for a socket, with the `?? 'unknown'` fallback. */
  function Actor(names: map<ClientId, string>, id: ClientId): string
  {
    if id in names then names[id] else Sentinel
  }

  /** The template literal `select ${payload}`; a null payload prints as "null". */
  function SelectLabel(option: Option<string>): string
  {
    "select " + match option
                case None => "null"
                case Some(o) => o
  }

  /** The action chain of the message handler: what one parsed message does to the
      record. Every handled action names its sender in `lastBy`; any other message
      leaves the record as it is; outside `reset`, `doneBy` only grows at the end. */
  function Apply(s: SharedState, actor: string, m: Msg): (r: SharedState)
    ensures Handled(m) ==> r.lastBy == Some(actor)
    ensures !Handled(m) ==> r == s
    ensures !m.Reset? ==> s.doneBy <= r.doneBy
  {
    match m
    case Select(o) =>
      s.(selectedOption := o, lastAction := Some(SelectLabel(o)), lastBy := Some(actor))
    case Done(p) =>
      s.(doneBy := if p in s.doneBy then s.doneBy else s.doneBy + [p],
         lastAction := Some("done"), lastBy := Some(actor))
    case Lock =>
      s.(locked := true, lastAction := Some("locked"), lastBy := Some(actor))
    case Reset =>
      SharedState(false, None, [], Some("reset"), Some(actor))
    case _ => s
  }

  lemma DoneRecordsEntry(s: SharedState, actor: string, p: string)
    ensures var r := Apply(s, actor, Done(p));
      && p in r.doneBy
      && (p in s.doneBy ==> r.doneBy == s.doneBy)
      && (p !in s.doneBy ==> |r.doneBy| == |s.doneBy| + 1 && r.doneBy[..|s.doneBy|] == s.doneBy
                             && r.doneBy[|s.doneBy|] == p)
      && r.lastAction == Some("done") && r.lastBy == Some(actor)
      && r.locked == s.locked && r.selectedOption == s.selectedOption
  {
  }

  lemma DoneKeepsNoDuplicates(s: SharedState, actor: string, m: Msg)
    requires NoDuplicates(s.doneBy)
    ensures NoDuplicates(Apply(s, actor, m).doneBy)
  {
    if m.Done? && m.entry !in s.doneBy {
      var d := s.doneBy + [m.entry];
      forall i, j | 0 <= i < j < |d| ensures d[i] != d[j] {
        if j == |s.doneBy| {
          assert d[i] in s.doneBy;
        }
      }
    }
  }

  /** A second `done` with the same entry leaves `doneBy` as the first one left it. */
  lemma DoneIdempotent(s: SharedState, a1: string, a2: string, p: string)
    ensures Apply(Apply(s, a1, Done(p)), a2, Done(p)).doneBy == Apply(s, a1, Done(p)).doneBy
  {
  }

  lemma SelectStoresPayload(s: SharedState, actor: string, o: Option<string>)
    ensures var r := Apply(s, actor, Select(o));
      && r.selectedOption == o
      && r.lastAction == Some(SelectLabel(o)) && r.lastBy == Some(actor)
      && r.locked == s.locked && r.doneBy == s.doneBy
  {
  }

  lemma LockSetsLocked(s: SharedState, actor: string)
    ensures var r := Apply(s, actor, Lock);
      && r.locked
      && r.lastAction == Some("locked") && r.lastBy == Some(actor)
      && r.selectedOption == s.selectedOption && r.doneBy == s.doneBy
  {
  }

  lemma ResetClears(s: SharedState, actor: string)
    ensures var r := Apply(s, actor, Reset);
      && !r.locked && r.selectedOption == None && r.doneBy == []
      && r.lastAction == Some("reset") && r.lastBy == Some(actor)
  {
  }

  /** Only `reset` clears the lock. */
  lemma OnlyResetUnlocks(s: SharedState, actor: string, m: Msg)
    requires s.locked && !m.Reset?
    ensures Apply(s, actor, m).locked
  {
  }

  lemma UnhandledLeavesState(s: SharedState, actor: string, m: Msg)
    requires m.Hello? || m.Unknown? || m.Malformed?
    ensures Apply(s, actor, m) == s
  {
  }

  /** One accepted message together with the name it was resolved to. */
  datatype Step = Step(actor: string, msg: Msg)

  /** The record after a sequence of messages, handled one at a time in arrival
      order. `lastBy` names the sender of the latest handled message. */
  function Replay(s: SharedState, steps: seq<Step>): (r: SharedState)
    ensures (forall i :: 0 <= i < |steps| ==> !Handled(steps[i].msg)) ==> r == s
    ensures forall i :: 0 <= i < |steps| && Handled(steps[i].msg)
                        && (forall j :: i < j < |steps| ==> !Handled(steps[j].msg))
                        ==> r.lastBy == Some(steps[i].actor)
    decreases |steps|
  {
    if steps == [] then s else Replay(Apply(s, steps[0].actor, steps[0].msg), steps[1..])
  }

  lemma {:induction false} ReplayKeepsNoDuplicates(s: SharedState, steps: seq<Step>)
    requires NoDuplicates(s.doneBy)
    ensures NoDuplicates(Replay(s, steps).doneBy)
    decreases |steps|
  {
    if steps != [] {
      DoneKeepsNoDuplicates(s, steps[0].actor, steps[0].msg);
      ReplayKeepsNoDuplicates(Apply(s, steps[0].actor, steps[0].msg), steps[1..]);
    }
  }

  lemma {:induction false} ReplayStaysLocked(s: SharedState, steps: seq<Step>)
    requires s.locked
    requires forall i :: 0 <= i < |steps| ==> !steps[i].msg.Reset?
    ensures Replay(s, steps).locked
    decreases |steps|
  {
    if steps != [] {
      OnlyResetUnlocks(s, steps[0].actor, steps[0].msg);
      ReplayStaysLocked(Apply(s, steps[0].actor, steps[0].msg), steps[1..]);
    }
  }

  /** An entry that made it into `doneBy` stays there until a `reset`. */
  lemma {:induction false} ReplayKeepsDoneEntries(s: SharedState, steps: seq<Step>, p: string)
    requires p in s.doneBy
    requires forall i :: 0 <= i < |steps| ==> !steps[i].msg.Reset?
    ensures p in Replay(s, steps).doneBy
    decreases |steps|
  {
    if steps != [] {
      ReplayKeepsDoneEntries(Apply(s, steps[0].actor, steps[0].msg), steps[1..], p);
    }
  }

  /** The outboxes after one broadcast of `msg`: every registered socket that is
      open gets one more copy of `msg`, every other outbox stays as it was. */
  function Fanout(outbox: map<ClientId, seq<SharedState>>, clients: set<ClientId>,
                  open: set<ClientId>, msg: SharedState): (r: map<ClientId, seq<SharedState>>)
    ensures r.Keys == outbox.Keys
    ensures forall id :: id in r ==> outbox[id] <= r[id] && |r[id]| <= |outbox[id]| + 1
  {
    map id | id in outbox :: if id in clients && id in open then outbox[id] + [msg] else outbox[id]
  }

  lemma FanoutDelivers(outbox: map<ClientId, seq<SharedState>>, clients: set<ClientId>,
                       open: set<ClientId>, msg: SharedState, id: ClientId)
    requires id in outbox
    ensures var r := Fanout(outbox, clients, open, msg);
      && id in r
      && (id in clients && id in open ==>
            |r[id]| == |outbox[id]| + 1 && r[id][..|outbox[id]|] == outbox[id]
            && r[id][|outbox[id]|] == msg)
      && (id !in clients || id !in open ==> r[id] == outbox[id])
  {
  }

  /** Two open recipients of one broadcast receive the same record. */
  lemma FanoutIdentical(outbox: map<ClientId, seq<SharedState>>, clients: set<ClientId>,
                        open: set<ClientId>, msg: SharedState, a: ClientId, b: ClientId)
    requires a in outbox && b in outbox && a in clients && b in clients && a in open && b in open
    ensures var r := Fanout(outbox, clients, open, msg);
      Last(r[a]) == Last(r[b]) == msg
  {
  }

  function Last(s: seq<SharedState>): SharedState
    requires s != []
  {
    s[|s| - 1]
  }

  /** The process-wide state of the server. `outbox` records, per socket ever
      connected, the records sent to it, oldest first; it is never shrunk, so a
      socket id that is not in it is a fresh connection. */
  class Server {
    var state: SharedState
    var clients: set<ClientId>
    var names: map<ClientId, string>
    var outbox: map<ClientId, seq<SharedState>>

    ghost predicate Valid()
      reads this
    {
      && names.Keys == clients
      && clients <= outbox.Keys
      && NoDuplicates(state.doneBy)
    }

    constructor ()
      ensures Valid()
      ensures state == Initial && clients == {} && names == map[] && outbox == map[]
    {
      state := Initial;
      clients := {};
      names := map[];
      outbox := map[];
    }

    /** A new socket: registered as "unknown" and sent exactly the current record. */
    method OnConnect(id: ClientId)
      requires Valid()
      requires id !in outbox
      modifies this
      ensures Valid()
      ensures clients == old(clients) + {id}
      ensures names == old(names)[id := Sentinel]
      ensures outbox == old(outbox)[id := [state]]
      ensures state == old(state)
    {
      clients := clients + {id};
      names := names[id := Sentinel];
      outbox := outbox[id := [state]];
    }

    /** Sends the current record to every registered socket that is open
        (`open` is the set of sockets whose readyState is OPEN right now). */
    method Broadcast(open: set<ClientId>)
      requires Valid()
      modifies this
      ensures Valid()
      ensures outbox == Fanout(old(outbox), clients, open, state)
      ensures state == old(state) && clients == old(clients) && names == old(names)
    {
      var pending := clients;
      while pending != {}
        invariant pending <= clients
        invariant state == old(state) && clients == old(clients) && names == old(names)
        invariant outbox.Keys == old(outbox).Keys
        invariant forall id :: id in outbox ==>
          outbox[id] == if id in clients - pending && id in open then old(outbox)[id] + [state]
                        else old(outbox)[id]
        decreases pending
      {
        var id :| id in pending;
        if id in open {
          outbox := outbox[id := outbox[id] + [state]];
        }
        pending := pending - {id};
      }
    }

    /** One upstream message from socket `id`. */
    method OnMessage(id: ClientId, msg: Msg, open: set<ClientId>)
      requires Valid()
      requires id in clients
      requires WellFormed(msg)
      modifies this
      ensures Valid()
      ensures clients == old(clients)
      ensures msg.Malformed? ==>
        state == old(state) && names == old(names) && outbox == old(outbox)
      ensures Registers(msg) ==>
        names == old(names)[id := msg.name.value] && state == old(state) && outbox == old(outbox)
      ensures !msg.Malformed? && !Registers(msg) ==>
        && names == old(names)
        && state == Apply(old(state), Actor(old(names), id), msg)
        && outbox == Fanout(old(outbox), clients, open, state)
    {
      if msg.Malformed? {
        return;
      }
      var clientName := Actor(names, id);
      if Registers(msg) {
        names := names[id := msg.name.value];
        return;
      }
      match msg {
        case Select(o) =>
          state := state.(selectedOption := o);
          state := state.(lastAction := Some(SelectLabel(o)));
          state := state.(lastBy := Some(clientName));
        case Done(p) =>
          if p !in state.doneBy {
            DoneKeepsNoDuplicates(state, clientName, msg);
            state := state.(doneBy := state.doneBy + [p]);
          }
          state := state.(lastAction := Some("done"));
          state := state.(lastBy := Some(clientName));
        case Lock =>
          state := state.(locked := true);
          state := state.(lastAction := Some("locked"));
          state := state.(lastBy := Some(clientName));
        case Reset =>
          state := SharedState(false, None, [], Some("reset"), Some(clientName));
        case _ =>
      }
      Broadcast(open);
    }

    /** A socket closed: it leaves the registry; the record and every outbox stay. */
    method OnClose(id: ClientId)
      requires Valid()
      modifies this
      ensures Valid()
      ensures clients == old(clients) - {id}
      ensures names == old(names) - {id}
      ensures state == old(state) && outbox == old(outbox)
    {
      clients := clients - {id};
      names := names - {id};
    }
  }

  /** A fresh server greets its first socket with the initial record; after
      `hello` and `select A` the broadcast names the chooser. */
  method SessionSelect()
  {
    var srv := new Server();
    srv.OnConnect(1);
    assert srv.outbox[1] == [Initial];
    srv.OnMessage(1, Hello(Some("alice")), {1});
    assert srv.outbox[1] == [Initial] && srv.names[1] == "alice";
    srv.OnMessage(1, Select(Some("A")), {1});
    assert SelectLabel(Some("A")) == "select A";
    assert srv.state == SharedState(false, Some("A"), [], Some("select A"), Some("alice"));
    assert srv.outbox[1] == [Initial, srv.state];
  }

  /** Two `done` messages with the same entry record it once; a `select` after
      `lock` is still applied. */
  method SessionDoneAndLock()
  {
    var srv := new Server();
    srv.OnConnect(1);
    srv.OnMessage(1, Done("alice"), {1});
    srv.OnMessage(1, Done("alice"), {1});
    assert srv.state.doneBy == ["alice"];
    srv.OnMessage(1, Lock, {1});
    srv.OnMessage(1, Select(Some("B")), {1});
    assert srv.state.locked && srv.state.selectedOption == Some("B");
  }

  /** A socket that connects after a `reset` receives the reset record; closing a
      socket leaves the record alone. */
  method SessionReset()
  {
    var srv := new Server();
    srv.OnConnect(1);
    srv.OnMessage(1, Reset, {1});
    srv.OnConnect(2);
    assert srv.outbox[2] == [SharedState(false, None, [], Some("reset"), Some("unknown"))];
    srv.OnClose(1);
    assert srv.state.lastAction == Some("reset") && 1 !in srv.clients && 2 in srv.clients;
  }
}
