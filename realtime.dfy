/** The client's connection helper: URL normalisation, the two callback lists,
    and the upstream envelopes it sends while the socket is open. */
module Realtime {
  import opened Shared

  // ---- URL normalisation ----

  /** `s.replace(/^pat/, rep)` for a literal `pat`. */
  function ReplaceLeading(s: string, pat: string, rep: string): (r: string)
    ensures pat <= s ==> rep <= r && r[|rep|..] == s[|pat|..]
    ensures !(pat <= s) ==> r == s
  {
    if pat <= s then rep + s[|pat|..] else s
  }

  /** Replacing a leading `pat` by `rep` is undone by replacing the leading `rep` by `pat`. */
  lemma ReplaceLeadingUndo(s: string, pat: string, rep: string)
    requires pat <= s
    ensures ReplaceLeading(ReplaceLeading(s, pat, rep), rep, pat) == s
  {
    var r := ReplaceLeading(s, pat, rep);
    assert pat + r[|rep|..] == pat + s[|pat|..] == s;
  }

  /** `pat` occurs in `s` starting at index `k`. */
  predicate OccursAt(s: string, pat: string, k: nat)
  {
    k + |pat| <= |s| && s[k..k + |pat|] == pat
  }

  /** `s.replace(/pat/, rep)` for a literal `pat`: only the first occurrence is
      replaced, and a string without `pat` is returned as it is. */
  function ReplaceFirst(s: string, pat: string, rep: string): (r: string)
    ensures (forall k: nat :: k <= |s| ==> !OccursAt(s, pat, k)) ==> r == s
    decreases |s|
  {
    if pat <= s then
      assert OccursAt(s, pat, 0);
      rep + s[|pat|..]
    else if s == [] then s
    else
      OccursShift(s, pat);
      assert [s[0]] + s[1..] == s;
      [s[0]] + ReplaceFirst(s[1..], pat, rep)
  }

  /** Where `pat` first occurs at `k`, that occurrence and nothing else is replaced. */
  lemma {:induction false} ReplaceFirstAt(s: string, pat: string, rep: string, k: nat)
    requires OccursAt(s, pat, k)
    requires forall j: nat :: j < k ==> !OccursAt(s, pat, j)
    ensures ReplaceFirst(s, pat, rep) == s[..k] + rep + s[k + |pat|..]
    decreases |s|
  {
    if k == 0 {
      assert pat <= s;
      assert s[..0] == [];
    } else {
      assert !OccursAt(s, pat, 0);
      assert !(pat <= s);
      var t := s[1..];
      FirstOccurrenceShift(s, pat, k);
      ReplaceFirstAt(t, pat, rep, k - 1);
      assert ReplaceFirst(s, pat, rep) == [s[0]] + ReplaceFirst(t, pat, rep);
      ConsSlices(s, k, k + |pat|, rep);
    }
  }

  /** A first occurrence at `k > 0` in `s` is a first occurrence at `k - 1` in `s[1..]`. */
  lemma FirstOccurrenceShift(s: string, pat: string, k: nat)
    requires 1 <= k && OccursAt(s, pat, k)
    requires forall j: nat :: j < k ==> !OccursAt(s, pat, j)
    ensures OccursAt(s[1..], pat, k - 1)
    ensures forall j: nat :: j < k - 1 ==> !OccursAt(s[1..], pat, j)
  {
    OccursShift(s, pat);
    forall j: nat | j < k - 1 ensures !OccursAt(s[1..], pat, j) {
      assert !OccursAt(s, pat, j + 1);
    }
  }

  /** Putting the first character back in front of a splice of `s[1..]`. */
  lemma ConsSlices(s: string, k: nat, m: nat, rep: string)
    requires 1 <= k <= m <= |s|
    ensures [s[0]] + (s[1..][..k - 1] + rep + s[1..][m - 1..]) == s[..k] + rep + s[m..]
  {
    assert s[..k] == [s[0]] + s[1..][..k - 1];
    assert s[m..] == s[1..][m - 1..];
  }

  /** `pat` occurs in `s[1..]` at `k` exactly when it occurs in `s` at `k + 1`. */
  lemma OccursShift(s: string, pat: string)
    requires s != []
    ensures forall k: nat :: k < |s| ==> (OccursAt(s[1..], pat, k) <==> OccursAt(s, pat, k + 1))
  {
    forall k: nat | k < |s|
      ensures OccursAt(s[1..], pat, k) <==> OccursAt(s, pat, k + 1)
    {
      if k + 1 + |pat| <= |s| {
        assert s[1..][k..k + |pat|] == s[k + 1..k + 1 + |pat|];
      }
    }
  }

  /** Replacing a pattern by itself changes nothing. */
  lemma {:induction false} ReplaceFirstSame(s: string, pat: string)
    ensures ReplaceFirst(s, pat, pat) == s
    decreases |s|
  {
    if pat <= s {
      assert pat + s[|pat|..] == s;
    } else if s != [] {
      ReplaceFirstSame(s[1..], pat);
      assert [s[0]] + s[1..] == s;
    }
  }

  /** The URL `connect` opens: an http(s) scheme becomes ws(s), anything else is kept. */
  function NormalizeUrl(url: string): (r: string)
    ensures "https" <= url ==> r == "wss" + url[5..]
    ensures "http" <= url && !("https" <= url) ==> r == "ws" + url[4..]
    ensures !("http" <= url) ==> r == url
    ensures !("http" <= r)
  {
    var u := ReplaceLeading(ReplaceLeading(url, "https", "wss"), "http", "ws");
    ReplaceFirstSame(u, "wss://");
    assert |u| > 0 && u[0] == 'w' ==> !("http" <= u);
    ReplaceFirst(u, "wss://", "wss://")
  }

  lemma NormalizeIdempotent(url: string)
    ensures NormalizeUrl(NormalizeUrl(url)) == NormalizeUrl(url)
  {
  }

  // ---- Callback lists ----

  /** A subscribed callback, compared by identity. */
  type CallbackId = nat

  /** `cbs.filter((x) => x !== cb)` */
  function Without(cbs: seq<CallbackId>, cb: CallbackId): (r: seq<CallbackId>)
    ensures cb !in r
    ensures forall x :: x != cb ==> (x in r <==> x in cbs)
    ensures |r| <= |cbs|
    decreases |cbs|
  {
    if cbs == [] then []
    else (if cbs[0] == cb then [] else [cbs[0]]) + Without(cbs[1..], cb)
  }

  /** Filtering works piece by piece, so the callbacks that stay keep their order. */
  lemma {:induction false} WithoutConcat(a: seq<CallbackId>, b: seq<CallbackId>, cb: CallbackId)
    ensures Without(a + b, cb) == Without(a, cb) + Without(b, cb)
    decreases |a|
  {
    if a == [] {
      assert a + b == b;
    } else {
      assert (a + b)[1..] == a[1..] + b;
      WithoutConcat(a[1..], b, cb);
    }
  }

  /** A list without `cb` is left as it is. */
  lemma {:induction false} WithoutAbsent(cbs: seq<CallbackId>, cb: CallbackId)
    requires cb !in cbs
    ensures Without(cbs, cb) == cbs
    decreases |cbs|
  {
    if cbs != [] {
      WithoutAbsent(cbs[1..], cb);
      assert [cbs[0]] + cbs[1..] == cbs;
    }
  }

  /** Unsubscribing a callback that was subscribed once restores the list before it. */
  lemma UnsubscribeUndoesSubscribe(cbs: seq<CallbackId>, cb: CallbackId)
    requires cb !in cbs
    ensures Without(cbs + [cb], cb) == cbs
  {
    WithoutConcat(cbs, [cb], cb);
    WithoutAbsent(cbs, cb);
    assert Without([cb], cb) == [];
  }

  // ---- Upstream envelopes ----

  datatype Payload = NoPayload | Text(text: string) | NameRecord(name: string)

  /** `{ action, payload }` as the client serialises it. */
  datatype Envelope = Envelope(action: string, payload: Payload)

  /** The helper returned by `connect`. `open` parameters stand for
      `ws.readyState === WebSocket.OPEN` at the moment of the call; `sent` is
      every envelope handed to the socket, oldest first. */
  class RealtimeClient {
    const url: string
    const user: string
    var connectionCallbacks: seq<CallbackId>
    var stateCallbacks: seq<CallbackId>
    var sent: seq<Envelope>

    constructor Connect(rawUrl: string, user: string)
      ensures url == NormalizeUrl(rawUrl) && this.user == user
      ensures connectionCallbacks == [] && stateCallbacks == [] && sent == []
    {
      url := NormalizeUrl(rawUrl);
      this.user := user;
      connectionCallbacks := [];
      stateCallbacks := [];
      sent := [];
    }

    method OnConnection(cb: CallbackId)
      modifies this
      ensures connectionCallbacks == old(connectionCallbacks) + [cb]
      ensures stateCallbacks == old(stateCallbacks) && sent == old(sent)
    {
      connectionCallbacks := connectionCallbacks + [cb];
    }

    /** The function `onConnection` returns. */
    method UnsubscribeConnection(cb: CallbackId)
      modifies this
      ensures connectionCallbacks == Without(old(connectionCallbacks), cb)
      ensures stateCallbacks == old(stateCallbacks) && sent == old(sent)
    {
      connectionCallbacks := Without(connectionCallbacks, cb);
    }

    method OnState(cb: CallbackId)
      modifies this
      ensures stateCallbacks == old(stateCallbacks) + [cb]
      ensures connectionCallbacks == old(connectionCallbacks) && sent == old(sent)
    {
      stateCallbacks := stateCallbacks + [cb];
    }

    /** The function `onState` returns. */
    method UnsubscribeState(cb: CallbackId)
      modifies this
      ensures stateCallbacks == Without(old(stateCallbacks), cb)
      ensures connectionCallbacks == old(connectionCallbacks) && sent == old(sent)
    {
      stateCallbacks := Without(stateCallbacks, cb);
    }

    /** Hands `e` to the socket only when it is open. */
    method SendIfOpen(e: Envelope, open: bool)
      modifies this
      ensures sent == old(sent) + (if open then [e] else [])
      ensures connectionCallbacks == old(connectionCallbacks) && stateCallbacks == old(stateCallbacks)
    {
      if open {
        sent := sent + [e];
      }
    }

    method Select(option: string, open: bool)
      modifies this
      ensures sent == old(sent) + (if open then [Envelope("select", Text(option))] else [])
      ensures connectionCallbacks == old(connectionCallbacks) && stateCallbacks == old(stateCallbacks)
    {
      SendIfOpen(Envelope("select", Text(option)), open);
    }

    /** `done` names the user in its payload. */
    method Done(open: bool)
      modifies this
      ensures sent == old(sent) + (if open then [Envelope("done", Text(user))] else [])
      ensures connectionCallbacks == old(connectionCallbacks) && stateCallbacks == old(stateCallbacks)
    {
      SendIfOpen(Envelope("done", Text(user)), open);
    }

    method Reset(open: bool)
      modifies this
      ensures sent == old(sent) + (if open then [Envelope("reset", NoPayload)] else [])
      ensures connectionCallbacks == old(connectionCallbacks) && stateCallbacks == old(stateCallbacks)
    {
      SendIfOpen(Envelope("reset", NoPayload), open);
    }

    method Lock(open: bool)
      modifies this
      ensures sent == old(sent) + (if open then [Envelope("lock", NoPayload)] else [])
      ensures connectionCallbacks == old(connectionCallbacks) && stateCallbacks == old(stateCallbacks)
    {
      SendIfOpen(Envelope("lock", NoPayload), open);
    }

    /** The socket opened: say `hello` with the user name, then tell every
        connection callback, in subscription order, that the client is connected. */
    method OnOpen(open: bool) returns (calls: seq<(CallbackId, bool)>)
      modifies this
      ensures sent == old(sent) + (if open then [Envelope("hello", NameRecord(user))] else [])
      ensures connectionCallbacks == old(connectionCallbacks) && stateCallbacks == old(stateCallbacks)
      ensures |calls| == |connectionCallbacks|
      ensures forall i :: 0 <= i < |calls| ==> calls[i] == (connectionCallbacks[i], true)
    {
      SendIfOpen(Envelope("hello", NameRecord(user)), open);
      calls := Notify(connectionCallbacks, true);
    }

    /** The socket closed or failed: every connection callback hears `false`. */
    method OnDisconnect() returns (calls: seq<(CallbackId, bool)>)
      ensures |calls| == |connectionCallbacks|
      ensures forall i :: 0 <= i < |calls| ==> calls[i] == (connectionCallbacks[i], false)
    {
      calls := Notify(connectionCallbacks, false);
    }

    /** A downstream message: a record that parses goes to every state callback,
        in subscription order; one that does not parse reaches nobody. */
    method OnMessage(snapshot: Option<SharedState>) returns (calls: seq<(CallbackId, SharedState)>)
      ensures snapshot.None? ==> calls == []
      ensures snapshot.Some? ==>
        |calls| == |stateCallbacks|
        && forall i :: 0 <= i < |calls| ==> calls[i] == (stateCallbacks[i], snapshot.value)
    {
      calls := [];
      if snapshot.Some? {
        var i := 0;
        while i < |stateCallbacks|
          invariant 0 <= i <= |stateCallbacks|
          invariant |calls| == i
          invariant forall k :: 0 <= k < i ==> calls[k] == (stateCallbacks[k], snapshot.value)
        {
          calls := calls + [(stateCallbacks[i], snapshot.value)];
          i := i + 1;
        }
      }
    }
  }

  /** `cbs.forEach((cb) => cb(v))`, as the list of calls it makes. */
  method Notify(cbs: seq<CallbackId>, v: bool) returns (calls: seq<(CallbackId, bool)>)
    ensures |calls| == |cbs|
    ensures forall i :: 0 <= i < |calls| ==> calls[i] == (cbs[i], v)
  {
    calls := [];
    for i := 0 to |cbs|
      invariant |calls| == i
      invariant forall k :: 0 <= k < i ==> calls[k] == (cbs[k], v)
    {
      calls := calls + [(cbs[i], v)];
    }
  }
}
