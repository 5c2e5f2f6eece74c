/** The client's local mirror of the shared record and the reducer that updates it. */
module Reducer {
  import opened Shared

  /** The shared fields plus the client-only `connected` flag. */
  datatype ClientState = ClientState(
    locked: bool,
    selectedOption: Option<string>,
    doneBy: seq<string>,
    connected: bool,
    lastAction: Option<string>,
    lastBy: Option<string>)

  const InitialState := ClientState(false, None, [], false, None, None)

  /** The three action kinds, plus any other `type` the reducer may be handed. */
  datatype Action =
    | ConnectionChanged(connected: bool)
    | SnapshotReceived(snapshot: SharedState)
    | ParticipantDone(name: string)
    | Unrecognised(kind: string)

  /** A real action's `type` tag: an `Unrecognised` action carries none of the three
      tags the reducer handles. */
  predicate WellFormed(a: Action)
  {
    a.Unrecognised? ==> a.kind !in {"CONNECTION_CHANGED", "SNAPSHOT_RECEIVED", "PARTICIPANT_DONE"}
  }

  /** The shared part of a client state. */
  function SharedPart(s: ClientState): SharedState
  {
    SharedState(s.locked, s.selectedOption, s.doneBy, s.lastAction, s.lastBy)
  }

  /** The initial client state is disconnected and mirrors the server's initial record. */
  lemma InitialMirrorsServer()
    ensures !InitialState.connected && SharedPart(InitialState) == Initial
  {
  }

  // ---- Objects as property maps, for the object spread `{ ...a, ...b }` ----

  datatype Value = Flag(flag: bool) | Text(text: Option<string>) | Names(names: seq<string>)

  type Record = map<string, Value>

  function StateRecord(s: ClientState): Record
  {
    map["locked" := Flag(s.locked), "selectedOption" := Text(s.selectedOption),
        "doneBy" := Names(s.doneBy), "connected" := Flag(s.connected),
        "lastAction" := Text(s.lastAction), "lastBy" := Text(s.lastBy)]
  }

  /** A snapshot as an object: the five keys of the shared record and no `connected`. */
  function SnapshotRecord(p: SharedState): Record
  {
    map["locked" := Flag(p.locked), "selectedOption" := Text(p.selectedOption),
        "doneBy" := Names(p.doneBy),
        "lastAction" := Text(p.lastAction), "lastBy" := Text(p.lastBy)]
  }

  function FlagAt(r: Record, key: string, otherwise: bool): bool
  {
    if key in r && r[key].Flag? then r[key].flag else otherwise
  }

  function TextAt(r: Record, key: string, otherwise: Option<string>): Option<string>
  {
    if key in r && r[key].Text? then r[key].text else otherwise
  }

  function NamesAt(r: Record, key: string, otherwise: seq<string>): seq<string>
  {
    if key in r && r[key].Names? then r[key].names else otherwise
  }

  /** Reads a client state back from an object; a key that is missing or of the
      wrong shape keeps the field of `base`. */
  function FromRecord(r: Record, base: ClientState): ClientState
  {
    ClientState(
      FlagAt(r, "locked", base.locked),
      TextAt(r, "selectedOption", base.selectedOption),
      NamesAt(r, "doneBy", base.doneBy),
      FlagAt(r, "connected", base.connected),
      TextAt(r, "lastAction", base.lastAction),
      TextAt(r, "lastBy", base.lastBy))
  }

  lemma RecordRoundTrip(s: ClientState, base: ClientState)
    ensures FromRecord(StateRecord(s), base) == s
  {
  }

  /** `{ ...state, ...snapshot }`: the later object's keys win, so the shared fields
      come from the snapshot, and `connected`, which a snapshot lacks, from the state. */
  function Spread(s: ClientState, p: SharedState): (r: ClientState)
    ensures SharedPart(r) == p && r.connected == s.connected
  {
    FromRecord(StateRecord(s) + SnapshotRecord(p), s)
  }

  /** The reducer of the running client. */
  function Reduce(s: ClientState, a: Action): (r: ClientState)
    requires WellFormed(a)
    ensures a.ConnectionChanged? ==> r.connected == a.connected && SharedPart(r) == SharedPart(s)
    ensures a.SnapshotReceived? ==> SharedPart(r) == a.snapshot && r.connected == s.connected
    ensures a.ParticipantDone? ==>
      && |r.doneBy| == |s.doneBy| + 1 && r.doneBy[..|s.doneBy|] == s.doneBy
      && r.doneBy[|s.doneBy|] == a.name
      && r.locked == s.locked && r.selectedOption == s.selectedOption
      && r.connected == s.connected && r.lastAction == s.lastAction && r.lastBy == s.lastBy
    ensures a.Unrecognised? ==> r == s
  {
    match a
    case ConnectionChanged(c) => s.(connected := c)
    case SnapshotReceived(p) => Spread(s, p)
    case ParticipantDone(n) => s.(doneBy := s.doneBy + [n])
    case Unrecognised(_) => s
  }

  /** The reducer of the test suite, which copies the five fields one by one. Its
      contract is what the suite asserts of it. */
  function ReduceSolution(s: ClientState, a: Action): (r: ClientState)
    requires WellFormed(a)
    ensures a.ConnectionChanged? ==> r.connected == a.connected && SharedPart(r) == SharedPart(s)
    ensures a.SnapshotReceived? ==> SharedPart(r) == a.snapshot && r.connected == s.connected
    ensures a.ParticipantDone? ==> r.doneBy == s.doneBy + [a.name] && r.(doneBy := s.doneBy) == s
    ensures a.Unrecognised? ==> r == s
  {
    match a
    case ConnectionChanged(c) => s.(connected := c)
    case SnapshotReceived(p) =>
      s.(locked := p.locked, selectedOption := p.selectedOption, doneBy := p.doneBy,
         lastAction := p.lastAction, lastBy := p.lastBy)
    case ParticipantDone(n) => s.(doneBy := s.doneBy + [n])
    case Unrecognised(_) => s
  }

  /** The test suite's copy computes what the running client computes, on every input. */
  lemma CopiesAgree(s: ClientState, a: Action)
    requires WellFormed(a)
    ensures Reduce(s, a) == ReduceSolution(s, a)
  {
  }

  /** The assertions of the reducer test suite, on the states it uses. */
  method ReducerSuite()
  {
    assert Reduce(InitialState, Unrecognised("UNKNOWN_ACTION")) == InitialState;
    assert Reduce(InitialState, ConnectionChanged(true)).connected;
    assert !Reduce(InitialState, ConnectionChanged(false)).connected;

    var busy := ClientState(true, Some("A"), ["alice", "bob"], false, Some("select A"), Some("alice"));
    var r := Reduce(busy, ConnectionChanged(true));
    assert r.locked && r.selectedOption == Some("A") && r.doneBy == ["alice", "bob"];

    var online := InitialState.(connected := true);
    var snap := SharedState(true, Some("B"), ["charlie"], Some("select B"), Some("charlie"));
    r := Reduce(online, SnapshotReceived(snap));
    assert r.locked && r.selectedOption == Some("B") && r.doneBy == ["charlie"] && r.connected;

    r := Reduce(online, ParticipantDone("alice"));
    assert r.doneBy == ["alice"];
    var withAlice := online.(doneBy := ["alice"], lastAction := Some("done"), lastBy := Some("alice"));
    r := Reduce(withAlice, ParticipantDone("bob"));
    assert r.doneBy == ["alice", "bob"] && withAlice.doneBy == ["alice"];
  }
}
