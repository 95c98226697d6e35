/** The shared upstream of a channel: one reader loop, any number of clients that come and go.
    Blocks under a lock are atomic steps; everything between two locks can be interleaved.
    All steps of the service touch one key of the connection map, so this is the state of one
    channel.  The runs considered have one upstream at a time: a client installs a new upstream
    only when no other start is under way and the previous loop has returned. */
module Fanout {
  import opened Basics

  type ClientId = nat
  type Bytes = seq<byte>

  // ----- State -----

  /** Where a client's handler stands. */
  datatype Stage =
    | Arrived                  // created, headers written
    | JoinFound(conn: nat)     // has looked up the connection it is going to join
    | Starting                 // in startUpstream, between two streams
    | Opening                  // installed its connection, waits for the upstream
    | Waiting                  // waits for `done` or for its request to end
    | Leaving                  // about to be removed
    | RemoveFound(conn: nat)   // has looked up the connection it is removed from
    | CleanupPending           // was the last one, about to delete the map entry
    | Gone

  /** A client: its stage, how often `done` was closed, what its response was sent, and, as bookkeeping of
      the run, the connection it was listed in, the chunks of it that it got whole, and a last partial write. */
  datatype Client = Client(stage: Stage, closed: nat, received: Bytes,
                           home: Option<nat>, first: nat, end: nat, partial: Bytes)

  /** A connection object: its client list, and, as bookkeeping of the run, the chunks that its loop has handed
      to that list so far and those that the loop has read. */
  datatype Conn = Conn(clients: seq<ClientId>, chunks: seq<Bytes>, fetched: seq<Bytes>)

  /** The upstream of the channel, from its installation to the return of its loop; `own` is the
      connection that was installed with it. */
  datatype Upstream =
    | Idle
    | Connecting(own: nat, starter: ClientId)
    | Reading(own: nat)
    | Writing(own: nat, conn: nat, chunk: Bytes, err: bool)
    | Notifying(own: nat)
    | NotifyFound(own: nat, conn: nat)
    | Exiting(own: nat)

  datatype State = State(conns: seq<Conn>, entry: Option<nat>, upstream: Upstream, clients: map<ClientId, Client>)

  const INIT := State([], None, Idle, map[])

  datatype Step =
    | Arrive(c: ClientId)
    | JoinLookup(c: ClientId)
    | SkipJoin(c: ClientId)
    | JoinAppend(c: ClientId)
    | Install(c: ClientId)
    | OpenFails(c: ClientId)
    | OpenSucceeds(c: ClientId)
    | GiveUp(c: ClientId)
    | Wake(c: ClientId)
    | RemoveLookup(c: ClientId)
    | RemoveLocked(c: ClientId)
    | RemoveCleanup(c: ClientId)
    | Read(chunk: Bytes, err: bool)
    | WriteAll(fails: map<ClientId, nat>)
    | NotifyLookup
    | NotifyAll
    | LoopCleanup

  // ----- The locked blocks with loops -----

  function Without(cs: seq<ClientId>, c: ClientId): (r: seq<ClientId>)
  {
    if cs == [] then [] else if cs[0] == c then cs[1..] else [cs[0]] + Without(cs[1..], c)
  }

  /** One write: all of the chunk, or a failure after the first `n` bytes. */
  function Write(cl: Client, chunk: Bytes, fail: Option<nat>): Client {
    match fail
    case None => cl.(received := cl.received + chunk, end := cl.end + 1)
    case Some(n) =>
      var part := if n <= |chunk| then chunk[..n] else chunk;
      cl.(received := cl.received + part, partial := part, closed := cl.closed + 1)
  }

  function FailOf(fails: map<ClientId, nat>, c: ClientId): Option<nat> {
    if c in fails then Some(fails[c]) else None
  }

  function Alive(cs: seq<ClientId>, fails: map<ClientId, nat>): (r: seq<ClientId>)
  {
    if cs == [] then []
    else Alive(cs[..|cs| - 1], fails) + (if cs[|cs| - 1] in fails then [] else [cs[|cs| - 1]])
  }

  /** The clients after a chunk was written to those listed. */
  function Written(clients: map<ClientId, Client>, cs: seq<ClientId>, chunk: Bytes, fails: map<ClientId, nat>): map<ClientId, Client>
  {
    map c | c in clients :: if c in cs then Write(clients[c], chunk, FailOf(fails, c)) else clients[c]
  }

  function Notified(clients: map<ClientId, Client>, cs: seq<ClientId>): map<ClientId, Client>
  {
    map c | c in clients :: if c in cs then clients[c].(closed := clients[c].closed + 1) else clients[c]
  }

  // ----- Steps -----

  predicate At(s: State, c: ClientId, stage: Stage) {
    c in s.clients && s.clients[c].stage == stage
  }

  predicate Enabled(s: State, step: Step) {
    match step
    case Arrive(c) => c !in s.clients
    case JoinLookup(c) => At(s, c, Arrived)
    case SkipJoin(c) => At(s, c, Arrived)
    case JoinAppend(c) => c in s.clients && s.clients[c].stage.JoinFound? && s.clients[c].stage.conn < |s.conns|
    case Install(c) => At(s, c, Starting) && s.upstream.Idle?
    case OpenFails(c) => At(s, c, Opening) && s.upstream.Connecting? && s.upstream.starter == c
    case OpenSucceeds(c) => At(s, c, Opening) && s.upstream.Connecting? && s.upstream.starter == c
    case GiveUp(c) => At(s, c, Starting)
    case Wake(c) => At(s, c, Waiting)
    case RemoveLookup(c) => At(s, c, Leaving)
    case RemoveLocked(c) => c in s.clients && s.clients[c].stage.RemoveFound? && s.clients[c].stage.conn < |s.conns|
    case RemoveCleanup(c) => At(s, c, CleanupPending)
    case Read(_, _) => s.upstream.Reading? && s.upstream.own < |s.conns|
    case WriteAll(_) => s.upstream.Writing? && s.upstream.conn < |s.conns|
    case NotifyLookup => s.upstream.Notifying?
    case NotifyAll => s.upstream.NotifyFound? && s.upstream.conn < |s.conns|
    case LoopCleanup => s.upstream.Exiting?
  }

  function Move(s: State, c: ClientId, stage: Stage): State
    requires c in s.clients
  {
    s.(clients := s.clients[c := s.clients[c].(stage := stage)])
  }

  /** A client is put on the list of connection k, to be served from the next chunk on. */
  function Enlist(cl: Client, k: nat, at: nat, stage: Stage): Client {
    cl.(stage := stage, home := Some(k), first := at, end := at, partial := [])
  }

  function Next(s: State, step: Step): State
    requires Enabled(s, step)
  {
    match step
    case Arrive(c) => s.(clients := s.clients[c := Client(Arrived, 0, [], None, 0, 0, [])])
    case JoinLookup(c) => Move(s, c, if s.entry.Some? then JoinFound(s.entry.value) else Starting)
    case SkipJoin(c) => Move(s, c, Starting)
    case JoinAppend(c) =>
      var k := s.clients[c].stage.conn;
      var conn := s.conns[k];
      s.(conns := s.conns[k := conn.(clients := conn.clients + [c])],
         clients := s.clients[c := Enlist(s.clients[c], k, |conn.chunks|, Waiting)])
    case Install(c) =>
      var k := |s.conns|;
      State(s.conns + [Conn([c], [], [])], Some(k), Connecting(k, c),
            s.clients[c := Enlist(s.clients[c], k, 0, Opening)])
    case OpenFails(c) => Move(s.(entry := None, upstream := Idle), c, Starting)
    case OpenSucceeds(c) => Move(s.(upstream := Reading(s.upstream.own)), c, Waiting)
    case GiveUp(c) => Move(s, c, Gone)
    case Wake(c) => Move(s, c, Leaving)
    case RemoveLookup(c) => Move(s, c, if s.entry.Some? then RemoveFound(s.entry.value) else Gone)
    case RemoveLocked(c) =>
      var k := s.clients[c].stage.conn;
      var left := Without(s.conns[k].clients, c);
      Move(s.(conns := s.conns[k := s.conns[k].(clients := left)]), c, if left == [] then CleanupPending else Gone)
    case RemoveCleanup(c) => Move(s.(entry := None), c, Gone)
    case Read(chunk, err) =>
      var own := s.upstream.own;
      if chunk != [] then
        s.(conns := s.conns[own := s.conns[own].(fetched := s.conns[own].fetched + [chunk])],
           upstream := if s.entry.Some? then Writing(own, s.entry.value, chunk, err) else Exiting(own))
      else if err then s.(upstream := Notifying(own))
      else s
    case WriteAll(fails) =>
      var u := s.upstream;
      var conn := s.conns[u.conn];
      var alive := Alive(conn.clients, fails);
      s.(conns := s.conns[u.conn := Conn(alive, conn.chunks + [u.chunk], conn.fetched)],
         clients := Written(s.clients, conn.clients, u.chunk, fails),
         upstream := if alive == [] then Exiting(u.own) else if u.err then Notifying(u.own) else Reading(u.own))
    case NotifyLookup =>
      var own := s.upstream.own;
      s.(upstream := if s.entry.Some? then NotifyFound(own, s.entry.value) else Exiting(own))
    case NotifyAll =>
      var k := s.upstream.conn;
      s.(conns := s.conns[k := s.conns[k].(clients := [])],
         clients := Notified(s.clients, s.conns[k].clients),
         upstream := Exiting(s.upstream.own))
    case LoopCleanup => s.(entry := None, upstream := Idle)
  }

  ghost predicate IsRun(s: State, steps: seq<Step>)
    decreases |steps|
  {
    steps == [] || (Enabled(s, steps[0]) && IsRun(Next(s, steps[0]), steps[1..]))
  }

  ghost function RunFrom(s: State, steps: seq<Step>): State
    requires IsRun(s, steps)
    decreases |steps|
  {
    if steps == [] then s else RunFrom(Next(s, steps[0]), steps[1..])
  }

  // ----- The invariant -----

  function Concat(chunks: seq<Bytes>): Bytes {
    if chunks == [] then [] else Concat(chunks[..|chunks| - 1]) + chunks[|chunks| - 1]
  }

  ghost predicate NoDup(cs: seq<ClientId>) {
    forall i, j | 0 <= i < j < |cs| :: cs[i] != cs[j]
  }

  /** The map entry and everything the loop has looked up is the connection the loop was installed with. */
  ghost predicate Pointers(s: State) {
    && (s.entry.Some? ==> !s.upstream.Idle? && s.entry.value == s.upstream.own)
    && (!s.upstream.Idle? ==> s.upstream.own < |s.conns|)
    && (s.upstream.Connecting? ==> s.upstream.starter in s.clients)
    && (s.upstream.Writing? ==> s.upstream.conn == s.upstream.own)
    && (s.upstream.NotifyFound? ==> s.upstream.conn == s.upstream.own)
  }

  /** Connection k is the one the current upstream serves. */
  ghost predicate Live(s: State, k: nat) {
    !s.upstream.Idle? && s.upstream.own == k
  }

  predicate Enlisted(stage: Stage) {
    stage.Opening? || stage.Waiting? || stage.Leaving? || stage.RemoveFound? || stage.CleanupPending? || stage.Gone?
  }

  /** The client has been listed and has not been removed: it is on its list, or it was told that it is done. */
  predicate Attached(stage: Stage) {
    stage.Opening? || stage.Waiting? || stage.Leaving? || stage.RemoveFound?
  }

  /** A client on the list of the live connection has got every chunk since it joined, and is not done. */
  ghost predicate Served(cl: Client, k: nat, chunks: seq<Bytes>) {
    cl.home == Some(k) && Enlisted(cl.stage) && cl.closed == 0 && cl.end == |chunks| && cl.partial == []
  }

  ghost predicate Lists(s: State) {
    && (forall k | 0 <= k < |s.conns| :: NoDup(s.conns[k].clients))
    && (forall k, c | 0 <= k < |s.conns| && c in s.conns[k].clients ::
          c in s.clients && (Live(s, k) ==> Served(s.clients[c], k, s.conns[k].chunks)))
  }

  /** What a client was sent: a contiguous run of whole chunks of one upstream, and at most one
      partial write, the start of the next chunk, after which it is done. */
  ghost predicate Contiguous(cl: Client, chunks: seq<Bytes>) {
    && cl.first <= cl.end <= |chunks|
    && cl.received == Concat(chunks[cl.first..cl.end]) + cl.partial
    && (cl.partial != [] ==> cl.closed == 1 && cl.end < |chunks| && cl.partial <= chunks[cl.end])
  }

  /** A client that is not on any list yet. */
  ghost predicate Fresh(s: State, c: ClientId)
    requires c in s.clients
  {
    && s.clients[c].home == None
    && forall k | 0 <= k < |s.conns| :: c !in s.conns[k].clients
  }

  ghost predicate ClientOK(s: State, c: ClientId)
    requires c in s.clients
  {
    var cl := s.clients[c];
    && cl.closed <= 1
    && (cl.home.None? ==> cl.received == [] && cl.closed == 0)
    && (cl.home.Some? ==> cl.home.value < |s.conns| && Contiguous(cl, s.conns[cl.home.value].chunks))
    && (cl.stage.Arrived? ==> Fresh(s, c))
    && (cl.stage.JoinFound? ==> Fresh(s, c) && cl.stage.conn < |s.conns|)
    && (cl.stage.RemoveFound? ==> cl.stage.conn < |s.conns|)
    && (cl.stage.Starting? || cl.stage.Opening? ==> cl.received == [] && cl.closed == 0)
    && (cl.stage.Opening? ==> s.upstream.Connecting? && s.upstream.starter == c && cl.home == Some(s.upstream.own))
    && (s.upstream.Connecting? && s.upstream.starter == c ==> cl.stage.Opening?)
    && (Attached(cl.stage) ==>
          cl.home.Some? && (c in s.conns[cl.home.value].clients || cl.closed == 1))
  }

  /** An entry without clients is about to be deleted by someone. */
  ghost predicate Doomed(s: State) {
    s.entry.Some? && s.entry.value < |s.conns| && s.conns[s.entry.value].clients == [] ==>
      s.upstream.Exiting? || exists c :: At(s, c, CleanupPending)
  }

  /** No chunks are handed out before the upstream is open. */
  ghost predicate Quiet(s: State) {
    s.upstream.Connecting? && s.upstream.own < |s.conns| ==> s.conns[s.upstream.own].chunks == []
  }

  ghost predicate Inv(s: State) {
    && Pointers(s) && Lists(s) && Doomed(s) && Quiet(s)
    && forall c | c in s.clients :: ClientOK(s, c)
  }

  // ----- Every step keeps the invariant -----

  lemma EntryGone(s: State)
    requires Inv(s)
    ensures Inv(s.(entry := None))
  {
    var s' := s.(entry := None);
    forall c | c in s'.clients ensures ClientOK(s', c) {
      assert ClientOK(s, c);
    }
    forall k, c | 0 <= k < |s'.conns| && c in s'.conns[k].clients
      ensures c in s'.clients && (Live(s', k) ==> Served(s'.clients[c], k, s'.conns[k].chunks))
    {
      assert c in s.clients && (Live(s, k) ==> Served(s.clients[c], k, s.conns[k].chunks));
    }
  }

  ghost function WithRead(s: State, chunk: Bytes): State
    requires !s.upstream.Idle? && s.upstream.own < |s.conns|
  {
    var k := s.upstream.own;
    s.(conns := s.conns[k := s.conns[k].(fetched := s.conns[k].fetched + [chunk])])
  }

  lemma ReadNoted(s: State, chunk: Bytes)
    requires Inv(s) && !s.upstream.Idle?
    ensures Inv(WithRead(s, chunk))
  {
    var s' := WithRead(s, chunk);
    forall k | 0 <= k < |s.conns| ensures s'.conns[k].clients == s.conns[k].clients && s'.conns[k].chunks == s.conns[k].chunks {}
    forall c | c in s'.clients ensures ClientOK(s', c) {
      assert ClientOK(s, c);
    }
    forall k, c | 0 <= k < |s'.conns| && c in s'.conns[k].clients
      ensures c in s'.clients && (Live(s', k) ==> Served(s'.clients[c], k, s'.conns[k].chunks))
    {
      assert c in s.clients && (Live(s, k) ==> Served(s.clients[c], k, s.conns[k].chunks));
    }
    if s'.entry.Some? && s'.conns[s'.entry.value].clients == [] && !s'.upstream.Exiting? {
      var d :| At(s, d, CleanupPending);
      assert At(s', d, CleanupPending);
    }
  }

  /** The loop goes on to another point of its body, with the same connection. */
  lemma LoopMoves(s: State, u: Upstream)
    requires Inv(s) && !s.upstream.Idle? && !s.upstream.Connecting? && !u.Idle? && !u.Connecting? && u.own == s.upstream.own
    requires (u.Writing? ==> u.conn == u.own) && (u.NotifyFound? ==> u.conn == u.own)
    requires s.upstream.Exiting? ==> u.Exiting?
    ensures Inv(s.(upstream := u))
  {
    var s' := s.(upstream := u);
    forall c | c in s'.clients ensures ClientOK(s', c) {
      assert ClientOK(s, c);
    }
    forall k, c | 0 <= k < |s'.conns| && c in s'.conns[k].clients
      ensures c in s'.clients && (Live(s', k) ==> Served(s'.clients[c], k, s'.conns[k].chunks))
    {
      assert c in s.clients && (Live(s, k) ==> Served(s.clients[c], k, s.conns[k].chunks));
    }
    if s'.entry.Some? && s'.conns[s'.entry.value].clients == [] && !u.Exiting? {
      var c :| At(s, c, CleanupPending);
      assert At(s', c, CleanupPending);
    }
  }

  /** The upstream is over and its entry deleted. */
  lemma UpstreamEnds(s: State)
    requires Inv(s) && !s.upstream.Connecting?
    ensures Inv(s.(entry := None, upstream := Idle))
  {
    var s' := s.(entry := None, upstream := Idle);
    forall c | c in s'.clients ensures ClientOK(s', c) {
      assert ClientOK(s, c);
    }
    forall k, c | 0 <= k < |s'.conns| && c in s'.conns[k].clients ensures c in s'.clients {
      assert c in s.clients && (Live(s, k) ==> Served(s.clients[c], k, s.conns[k].chunks));
    }
  }

  /** A client goes on to another stage and nothing else changes. */
  lemma ClientMoves(s: State, c: ClientId, stage: Stage)
    requires Inv(s) && c in s.clients
    requires !s.clients[c].stage.Opening? && !stage.Opening? && !stage.Arrived?
    requires s.clients[c].stage.CleanupPending? ==> s.entry.None?
    requires stage.JoinFound? ==> Fresh(s, c) && stage.conn < |s.conns|
    requires stage.RemoveFound? ==> stage.conn < |s.conns|
    requires stage.Starting? ==> s.clients[c].received == [] && s.clients[c].closed == 0
    requires Enlisted(s.clients[c].stage) ==> Enlisted(stage)
    requires Attached(stage) ==> Attached(s.clients[c].stage)
    ensures Inv(Move(s, c, stage))
  {
    var s' := Move(s, c, stage);
    forall d | d in s'.clients ensures ClientOK(s', d) {
      assert ClientOK(s, d);
    }
    forall k, d | 0 <= k < |s'.conns| && d in s'.conns[k].clients
      ensures d in s'.clients && (Live(s', k) ==> Served(s'.clients[d], k, s'.conns[k].chunks))
    {
      assert d in s.clients && (Live(s, k) ==> Served(s.clients[d], k, s.conns[k].chunks));
    }
    if s'.entry.Some? && s'.conns[s'.entry.value].clients == [] && !s'.upstream.Exiting? {
      var d :| At(s, d, CleanupPending);
      assert At(s', d, CleanupPending);
    }
  }

  lemma ArriveKeeps(s: State, c: ClientId)
    requires Inv(s) && c !in s.clients
    ensures Inv(Next(s, Arrive(c)))
  {
    var s' := Next(s, Arrive(c));
    forall k | 0 <= k < |s.conns| ensures c !in s.conns[k].clients {
      assert c in s.conns[k].clients ==> c in s.clients;
    }
    forall d | d in s'.clients ensures ClientOK(s', d) {
      if d != c {
        assert ClientOK(s, d);
      }
    }
    forall k, d | 0 <= k < |s'.conns| && d in s'.conns[k].clients
      ensures d in s'.clients && (Live(s', k) ==> Served(s'.clients[d], k, s'.conns[k].chunks))
    {
      assert d in s.clients && (Live(s, k) ==> Served(s.clients[d], k, s.conns[k].chunks));
    }
    if s'.entry.Some? && s'.conns[s'.entry.value].clients == [] && !s'.upstream.Exiting? {
      var d :| At(s, d, CleanupPending);
      assert At(s', d, CleanupPending);
    }
  }

  lemma NoDupSnoc(cs: seq<ClientId>, c: ClientId)
    requires NoDup(cs) && c !in cs
    ensures NoDup(cs + [c])
  {
  }

  lemma ConcatEmpty(chunks: seq<Bytes>, i: nat)
    requires i <= |chunks|
    ensures Concat(chunks[i..i]) == []
  {
  }

  /** Nobody's cleanup is forgotten by a step that moves only one client and empties no list. */
  lemma StillDoomed(s: State, s': State, c: ClientId)
    requires Doomed(s) && s'.entry == s.entry && |s'.conns| == |s.conns| && s'.upstream == s.upstream
    requires s.entry.Some? && s.entry.value < |s.conns| ==>
               s'.conns[s.entry.value].clients == [] ==> s.conns[s.entry.value].clients == []
    requires forall d | d in s.clients && d != c :: d in s'.clients && s'.clients[d] == s.clients[d]
    requires !At(s, c, CleanupPending)
    ensures Doomed(s')
  {
    if s'.entry.Some? && s'.entry.value < |s'.conns| && s'.conns[s'.entry.value].clients == [] && !s'.upstream.Exiting? {
      var d :| At(s, d, CleanupPending);
      assert At(s', d, CleanupPending);
    }
  }

  lemma JoinAppendLists(s: State, s': State, c: ClientId, k: nat)
    requires Lists(s) && c in s.clients && k < |s.conns| && c !in s.conns[k].clients
    requires s.clients[c].closed == 0
    requires s' == s.(conns := s.conns[k := s.conns[k].(clients := s.conns[k].clients + [c])],
                      clients := s.clients[c := Enlist(s.clients[c], k, |s.conns[k].chunks|, Waiting)])
    requires forall j | 0 <= j < |s.conns| :: c !in s.conns[j].clients
    ensures Lists(s')
  {
    NoDupSnoc(s.conns[k].clients, c);
    forall j, d | 0 <= j < |s'.conns| && d in s'.conns[j].clients
      ensures d in s'.clients && (Live(s', j) ==> Served(s'.clients[d], j, s'.conns[j].chunks))
    {
      if d != c {
        assert d in s.conns[j].clients;
        assert d in s.clients && (Live(s, j) ==> Served(s.clients[d], j, s.conns[j].chunks));
      } else {
        assert j == k;
      }
    }
  }

  lemma JoinAppendKeeps(s: State, c: ClientId)
    requires Inv(s) && Enabled(s, JoinAppend(c))
    ensures Inv(Next(s, JoinAppend(c)))
  {
    var s', k := Next(s, JoinAppend(c)), s.clients[c].stage.conn;
    assert ClientOK(s, c);
    JoinAppendLists(s, s', c, k);
    StillDoomed(s, s', c);
    ConcatEmpty(s.conns[k].chunks, |s.conns[k].chunks|);
    forall d | d in s'.clients ensures ClientOK(s', d) {
      assert ClientOK(s, d);
    }
  }

  lemma InstallKeeps(s: State, c: ClientId)
    requires Inv(s) && Enabled(s, Install(c))
    ensures Inv(Next(s, Install(c)))
  {
    var s' := Next(s, Install(c));
    assert ClientOK(s, c);
    ConcatEmpty([], 0);
    forall d | d in s'.clients ensures ClientOK(s', d) {
      assert ClientOK(s, d);
    }
    forall j, d | 0 <= j < |s'.conns| && d in s'.conns[j].clients
      ensures d in s'.clients && (Live(s', j) ==> Served(s'.clients[d], j, s'.conns[j].chunks))
    {
      if j < |s.conns| {
        assert d in s.conns[j].clients;
        assert d in s.clients;
      }
    }
  }

  lemma OpenFailsKeeps(s: State, c: ClientId)
    requires Inv(s) && Enabled(s, OpenFails(c))
    ensures Inv(Next(s, OpenFails(c)))
  {
    var s' := Next(s, OpenFails(c));
    forall d | d in s'.clients ensures ClientOK(s', d) {
      assert ClientOK(s, d);
    }
    forall j, d | 0 <= j < |s'.conns| && d in s'.conns[j].clients ensures d in s'.clients && !Live(s', j) {
      assert d in s.conns[j].clients;
    }
  }

  lemma OpenSucceedsKeeps(s: State, c: ClientId)
    requires Inv(s) && Enabled(s, OpenSucceeds(c))
    ensures Inv(Next(s, OpenSucceeds(c)))
  {
    var s' := Next(s, OpenSucceeds(c));
    forall d | d in s'.clients ensures ClientOK(s', d) {
      assert ClientOK(s, d);
    }
    forall j, d | 0 <= j < |s'.conns| && d in s'.conns[j].clients
      ensures d in s'.clients && (Live(s', j) ==> Served(s'.clients[d], j, s'.conns[j].chunks))
    {
      assert d in s.clients && (Live(s, j) ==> Served(s.clients[d], j, s.conns[j].chunks));
    }
    assert ClientOK(s, c);
  }

  lemma {:induction false} WithoutFacts(cs: seq<ClientId>, c: ClientId)
    requires NoDup(cs)
    ensures NoDup(Without(cs, c)) && forall d :: d in Without(cs, c) <==> d in cs && d != c
  {
    if cs != [] {
      var rest := cs[1..];
      assert cs == [cs[0]] + rest;
      assert cs[0] !in rest;
      if cs[0] != c {
        WithoutFacts(rest, c);
      }
    }
  }

  lemma RemoveLockedLists(s: State, s': State, c: ClientId, k: nat, stage: Stage)
    requires Lists(s) && c in s.clients && k < |s.conns| && Enlisted(stage)
    requires s' == s.(conns := s.conns[k := s.conns[k].(clients := Without(s.conns[k].clients, c))],
                      clients := s.clients[c := s.clients[c].(stage := stage)])
    ensures Lists(s')
  {
    WithoutFacts(s.conns[k].clients, c);
    forall j, d | 0 <= j < |s'.conns| && d in s'.conns[j].clients
      ensures d in s'.clients && (Live(s', j) ==> Served(s'.clients[d], j, s'.conns[j].chunks))
    {
      assert d in s.conns[j].clients;
      assert d in s.clients && (Live(s, j) ==> Served(s.clients[d], j, s.conns[j].chunks));
    }
  }

  lemma RemoveLockedClient(s: State, s': State, c: ClientId, k: nat, stage: Stage, d: ClientId)
    requires c in s.clients && d in s.clients && k < |s.conns| && (stage.CleanupPending? || stage.Gone?)
    requires NoDup(s.conns[k].clients) && s.clients[c].stage.RemoveFound? && ClientOK(s, c) && ClientOK(s, d)
    requires s' == s.(conns := s.conns[k := s.conns[k].(clients := Without(s.conns[k].clients, c))],
                      clients := s.clients[c := s.clients[c].(stage := stage)])
    ensures ClientOK(s', d)
  {
    WithoutFacts(s.conns[k].clients, c);
  }

  lemma RemoveLockedKeeps(s: State, c: ClientId)
    requires Inv(s) && Enabled(s, RemoveLocked(c))
    ensures Inv(Next(s, RemoveLocked(c)))
  {
    var s', k := Next(s, RemoveLocked(c)), s.clients[c].stage.conn;
    var stage := s'.clients[c].stage;
    RemoveLockedLists(s, s', c, k, stage);
    forall d | d in s'.clients ensures ClientOK(s', d) {
      assert ClientOK(s, d) && ClientOK(s, c);
      RemoveLockedClient(s, s', c, k, stage, d);
    }
    if s'.entry == Some(k) && s'.conns[k].clients == [] {
      assert At(s', c, CleanupPending);
    } else {
      StillDoomed(s, s', c);
    }
  }

  lemma {:induction false} AliveFacts(cs: seq<ClientId>, fails: map<ClientId, nat>)
    requires NoDup(cs)
    ensures NoDup(Alive(cs, fails)) && forall d :: d in Alive(cs, fails) <==> d in cs && d !in fails
  {
    if cs != [] {
      var front, last := cs[..|cs| - 1], cs[|cs| - 1];
      assert cs == front + [last];
      assert last !in front;
      AliveFacts(front, fails);
    }
  }

  lemma ConcatOneMore(chunks: seq<Bytes>, chunk: Bytes, i: nat)
    requires i <= |chunks|
    ensures Concat((chunks + [chunk])[i..]) == Concat(chunks[i..]) + chunk
  {
    assert (chunks + [chunk])[i..] == chunks[i..] + [chunk];
    assert (chunks[i..] + [chunk])[..|chunks| - i] == chunks[i..];
  }

  lemma SliceOfMore(chunks: seq<Bytes>, chunk: Bytes, i: nat, j: nat)
    requires i <= j <= |chunks|
    ensures (chunks + [chunk])[i..j] == chunks[i..j]
  {
  }

  /** A write extends what a served client got by the chunk, or ends it with a part of it. */
  lemma WriteKeepsContiguous(cl: Client, chunks: seq<Bytes>, chunk: Bytes, fail: Option<nat>)
    requires Contiguous(cl, chunks) && cl.closed == 0 && cl.end == |chunks| && cl.partial == []
    ensures Contiguous(Write(cl, chunk, fail), chunks + [chunk])
  {
    var cl', more := Write(cl, chunk, fail), chunks + [chunk];
    SliceOfMore(chunks, chunk, cl.first, cl.end);
    assert chunks[cl.first..cl.end] == chunks[cl.first..];
    if fail.None? {
      ConcatOneMore(chunks, chunk, cl.first);
      assert more[cl'.first..cl'.end] == more[cl.first..];
    }
  }

  lemma MoreChunksKeepContiguous(cl: Client, chunks: seq<Bytes>, chunk: Bytes)
    requires Contiguous(cl, chunks)
    ensures Contiguous(cl, chunks + [chunk])
  {
    SliceOfMore(chunks, chunk, cl.first, cl.end);
  }

  lemma WriteAllClients(s: State, s': State, fails: map<ClientId, nat>, d: ClientId)
    requires Pointers(s) && s.upstream.Writing? && d in s.clients && ClientOK(s, d)
    requires d in s.conns[s.upstream.own].clients ==> Served(s.clients[d], s.upstream.own, s.conns[s.upstream.own].chunks)
    requires s' == Next(s, WriteAll(fails))
    requires forall e :: e in Alive(s.conns[s.upstream.own].clients, fails) <==>
                         e in s.conns[s.upstream.own].clients && e !in fails
    ensures ClientOK(s', d)
  {
    var u, conn := s.upstream, s.conns[s.upstream.own];
    assert s'.conns == s.conns[u.own := Conn(Alive(conn.clients, fails), conn.chunks + [u.chunk], conn.fetched)];
    if d in conn.clients {
      assert s'.clients[d] == Write(s.clients[d], u.chunk, FailOf(fails, d));
      WriteKeepsContiguous(s.clients[d], conn.chunks, u.chunk, FailOf(fails, d));
    } else {
      assert s'.clients[d] == s.clients[d];
      if s.clients[d].home == Some(u.own) {
        MoreChunksKeepContiguous(s.clients[d], conn.chunks, u.chunk);
      }
    }
  }

  lemma WriteAllLists(s: State, s': State, fails: map<ClientId, nat>)
    requires Pointers(s) && Lists(s) && s.upstream.Writing?
    requires s' == Next(s, WriteAll(fails))
    ensures Lists(s')
  {
    var u := s.upstream;
    AliveFacts(s.conns[u.own].clients, fails);
    forall j, d | 0 <= j < |s'.conns| && d in s'.conns[j].clients
      ensures d in s'.clients && (Live(s', j) ==> Served(s'.clients[d], j, s'.conns[j].chunks))
    {
      assert d in s.conns[j].clients;
      assert d in s.clients && (Live(s, j) ==> Served(s.clients[d], j, s.conns[j].chunks));
    }
  }

  lemma WriteAllKeeps(s: State, fails: map<ClientId, nat>)
    requires Inv(s) && Enabled(s, WriteAll(fails))
    ensures Inv(Next(s, WriteAll(fails)))
  {
    var s' := Next(s, WriteAll(fails));
    WriteAllLists(s, s', fails);
    forall d | d in s'.clients ensures ClientOK(s', d) {
      WriteAllClient(s, s', fails, d);
    }
  }

  lemma WriteAllClient(s: State, s': State, fails: map<ClientId, nat>, d: ClientId)
    requires Inv(s) && s.upstream.Writing? && d in s.clients
    requires s' == Next(s, WriteAll(fails))
    ensures ClientOK(s', d)
  {
    var k := s.upstream.own;
    assert ClientOK(s, d) && Live(s, k);
    assert d in s.conns[k].clients ==> Served(s.clients[d], k, s.conns[k].chunks);
    AliveFacts(s.conns[k].clients, fails);
    WriteAllClients(s, s', fails, d);
  }

  lemma NotifyAllLists(s: State)
    requires Pointers(s) && Lists(s) && s.upstream.NotifyFound?
    ensures Lists(Next(s, NotifyAll))
  {
    var s' := Next(s, NotifyAll);
    forall j, d | 0 <= j < |s'.conns| && d in s'.conns[j].clients
      ensures d in s'.clients && !Live(s', j)
    {
      assert d in s.conns[j].clients;
    }
  }

  lemma NotifyAllClient(s: State, d: ClientId)
    requires Pointers(s) && Lists(s) && s.upstream.NotifyFound? && d in s.clients && ClientOK(s, d)
    ensures ClientOK(Next(s, NotifyAll), d)
  {
    var k := s.upstream.own;
    assert Live(s, k);
    if d in s.conns[k].clients {
      assert Served(s.clients[d], k, s.conns[k].chunks);
    }
  }

  lemma NotifyAllKeeps(s: State)
    requires Inv(s) && Enabled(s, NotifyAll)
    ensures Inv(Next(s, NotifyAll))
  {
    var s' := Next(s, NotifyAll);
    NotifyAllLists(s);
    forall d | d in s'.clients ensures ClientOK(s', d) {
      NotifyAllClient(s, d);
    }
  }

  /** Every step, in any order, keeps the invariant. */
  lemma StepKeeps(s: State, step: Step)
    requires Inv(s) && Enabled(s, step)
    ensures Inv(Next(s, step))
  {
    match step
    case Arrive(c) => ArriveKeeps(s, c);
    case JoinLookup(c) =>
      assert ClientOK(s, c);
      ClientMoves(s, c, if s.entry.Some? then JoinFound(s.entry.value) else Starting);
    case SkipJoin(c) =>
      assert ClientOK(s, c);
      ClientMoves(s, c, Starting);
    case JoinAppend(c) => JoinAppendKeeps(s, c);
    case Install(c) => InstallKeeps(s, c);
    case OpenFails(c) => OpenFailsKeeps(s, c);
    case OpenSucceeds(c) => OpenSucceedsKeeps(s, c);
    case GiveUp(c) => ClientMoves(s, c, Gone);
    case Wake(c) => ClientMoves(s, c, Leaving);
    case RemoveLookup(c) => ClientMoves(s, c, if s.entry.Some? then RemoveFound(s.entry.value) else Gone);
    case RemoveLocked(c) => RemoveLockedKeeps(s, c);
    case RemoveCleanup(c) =>
      EntryGone(s);
      ClientMoves(s.(entry := None), c, Gone);
    case Read(chunk, err) =>
      if chunk != [] {
        ReadNoted(s, chunk);
        LoopMoves(WithRead(s, chunk), Next(s, step).upstream);
      } else if err {
        LoopMoves(s, Next(s, step).upstream);
      }
    case WriteAll(fails) => WriteAllKeeps(s, fails);
    case NotifyLookup => LoopMoves(s, Next(s, step).upstream);
    case NotifyAll => NotifyAllKeeps(s);
    case LoopCleanup => UpstreamEnds(s);
  }

  // ----- Nothing that was read is lost -----

  /** What was handed out is what was read, in order, bar the chunk that the loop still holds or has given up with. */
  ghost predicate HandedOut(s: State, k: nat)
    requires k < |s.conns|
  {
    var conn := s.conns[k];
    && conn.chunks <= conn.fetched && |conn.fetched| <= |conn.chunks| + 1
    && (Live(s, k) && s.upstream.Writing? ==> conn.fetched == conn.chunks + [s.upstream.chunk])
    && (Live(s, k) && !s.upstream.Writing? && !s.upstream.Exiting? ==> conn.fetched == conn.chunks)
  }

  /** A client whose handler has returned is off the list of the live connection, or the entry was gone when it
      wanted to be removed. */
  ghost predicate RemovalOK(s: State, c: ClientId)
    requires c in s.clients
  {
    var cl := s.clients[c];
    cl.home.Some? && cl.home.value < |s.conns| && Live(s, cl.home.value) && c in s.conns[cl.home.value].clients ==>
      && !cl.stage.CleanupPending?
      && (cl.stage.RemoveFound? ==> cl.stage.conn == cl.home.value)
      && (cl.stage.Gone? ==> s.entry.None?)
  }

  ghost predicate Sound(s: State) {
    && Inv(s)
    && (forall k | 0 <= k < |s.conns| :: HandedOut(s, k))
    && (forall c | c in s.clients :: RemovalOK(s, c))
  }

  lemma HandedOutStep(s: State, step: Step, k: nat)
    requires Pointers(s) && Quiet(s) && Enabled(s, step) && k < |Next(s, step).conns|
    requires k < |s.conns| ==> HandedOut(s, k)
    ensures HandedOut(Next(s, step), k)
  {
  }

  lemma RemovalStep(s: State, step: Step, c: ClientId)
    requires Inv(s) && Enabled(s, step) && c in Next(s, step).clients
    requires c in s.clients ==> RemovalOK(s, c)
    ensures RemovalOK(Next(s, step), c)
  {
    if c in s.clients {
      assert ClientOK(s, c);
      if step.RemoveLocked? {
        WithoutFacts(s.conns[s.clients[step.c].stage.conn].clients, step.c);
      } else if step.WriteAll? {
        AliveFacts(s.conns[s.upstream.own].clients, step.fails);
      } else {
        if s.clients[c].home.Some? {
          OnLiveList(s, c);
        }
        RemovalOtherStep(s, step, c);
      }
    }
  }

  ghost predicate ListedIsEnlisted(s: State, c: ClientId, k: nat)
    requires c in s.clients
  {
    k < |s.conns| && (Live(s, k) && c in s.conns[k].clients ==> Enlisted(s.clients[c].stage))
  }

  lemma OnLiveList(s: State, c: ClientId)
    requires Inv(s) && c in s.clients && s.clients[c].home.Some?
    ensures var k := s.clients[c].home.value;
            ListedIsEnlisted(s, c, k)
  {
    assert ClientOK(s, c);
    var k := s.clients[c].home.value;
    assert Live(s, k) && c in s.conns[k].clients ==> Served(s.clients[c], k, s.conns[k].chunks);
  }

  lemma RemovalOtherStep(s: State, step: Step, c: ClientId)
    requires Pointers(s) && Enabled(s, step) && !step.RemoveLocked? && !step.WriteAll? && c in s.clients
    requires RemovalOK(s, c) && (s.clients[c].home.Some? ==> ListedIsEnlisted(s, c, s.clients[c].home.value))
    ensures RemovalOK(Next(s, step), c)
  {
  }

  lemma SoundStep(s: State, step: Step)
    requires Sound(s) && Enabled(s, step)
    ensures Sound(Next(s, step))
  {
    StepKeeps(s, step);
    forall k | 0 <= k < |Next(s, step).conns| ensures HandedOut(Next(s, step), k) {
      HandedOutStep(s, step, k);
    }
    forall c | c in Next(s, step).clients ensures RemovalOK(Next(s, step), c) {
      RemovalStep(s, step, c);
    }
  }

  lemma {:induction false} RunKeeps(s: State, steps: seq<Step>)
    requires Sound(s) && IsRun(s, steps)
    ensures Sound(RunFrom(s, steps))
    decreases |steps|
  {
    if steps != [] {
      SoundStep(s, steps[0]);
      RunKeeps(Next(s, steps[0]), steps[1..]);
    }
  }

  ghost function Fetched(s: State, k: nat): seq<Bytes> {
    if k < |s.conns| then s.conns[k].fetched else []
  }

  /** What the loop of connection k reads in a step. */
  ghost function ReadBy(s: State, step: Step, k: nat): seq<Bytes> {
    if step.Read? && step.chunk != [] && Live(s, k) then [step.chunk] else []
  }

  /** The chunks that the loop of connection k reads in a run, in order. */
  ghost function ReadsOf(s: State, steps: seq<Step>, k: nat): seq<Bytes>
    requires IsRun(s, steps)
    decreases |steps|
  {
    if steps == [] then [] else ReadBy(s, steps[0], k) + ReadsOf(Next(s, steps[0]), steps[1..], k)
  }

  lemma ReadStep(s: State, step: Step, k: nat)
    requires Enabled(s, step)
    ensures Fetched(Next(s, step), k) == Fetched(s, k) + ReadBy(s, step, k)
  {
  }

  /** The record of a connection is exactly what its loop read in the run. */
  lemma {:induction false} FetchedAreReads(s: State, steps: seq<Step>, k: nat)
    requires IsRun(s, steps)
    ensures Fetched(RunFrom(s, steps), k) == Fetched(s, k) + ReadsOf(s, steps, k)
    decreases |steps|
  {
    if steps != [] {
      ReadStep(s, steps[0], k);
      FetchedAreReads(Next(s, steps[0]), steps[1..], k);
    }
  }

  // ----- Where a client's share begins -----

  /** A connection that a client was listed in, and how many of its chunks had been handed out by then. */
  datatype Listing = Listing(conn: nat, handedOut: nat)

  /** The listing that a step makes for client c, if it makes one. */
  ghost function ListingBy(s: State, step: Step, c: ClientId): Option<Listing>
    requires Enabled(s, step)
  {
    if step == JoinAppend(c) then
      var k := s.clients[c].stage.conn;
      Some(Listing(k, |s.conns[k].chunks|))
    else if step == Install(c) then Some(Listing(|s.conns|, 0))
    else None
  }

  /** The last listing of client c in a run, `was` being the last one before it. */
  ghost function LastListing(s: State, steps: seq<Step>, c: ClientId, was: Option<Listing>): Option<Listing>
    requires IsRun(s, steps)
    decreases |steps|
  {
    if steps == [] then was
    else
      var now := ListingBy(s, steps[0], c);
      LastListing(Next(s, steps[0]), steps[1..], c, if now.Some? then now else was)
  }

  /** The client's home is the connection it was listed in last, and its share begins with the first chunk that was
      handed out after that. */
  ghost predicate BeginsAt(s: State, c: ClientId, listing: Option<Listing>) {
    match listing
    case None => c in s.clients ==> s.clients[c].home == None
    case Some(l) => c in s.clients && s.clients[c].home == Some(l.conn) && s.clients[c].first == l.handedOut
  }

  /** Nothing but a listing changes a client's home or the place where its share begins. */
  lemma BeginStep(s: State, step: Step, c: ClientId, was: Option<Listing>)
    requires Enabled(s, step) && BeginsAt(s, c, was)
    ensures BeginsAt(Next(s, step), c, if ListingBy(s, step, c).Some? then ListingBy(s, step, c) else was)
  {
  }

  lemma {:induction false} BeginsAtLastListing(s: State, steps: seq<Step>, c: ClientId, was: Option<Listing>)
    requires IsRun(s, steps) && BeginsAt(s, c, was)
    ensures BeginsAt(RunFrom(s, steps), c, LastListing(s, steps, c, was))
    decreases |steps|
  {
    if steps != [] {
      var now := ListingBy(s, steps[0], c);
      BeginStep(s, steps[0], c, was);
      BeginsAtLastListing(Next(s, steps[0]), steps[1..], c, if now.Some? then now else was);
    }
  }

  // ----- What holds in every run -----

  lemma ContiguousInMore(cl: Client, chunks: seq<Bytes>, more: seq<Bytes>)
    requires Contiguous(cl, chunks) && chunks <= more
    ensures Contiguous(cl, more)
  {
    assert more[cl.first..cl.end] == chunks[cl.first..cl.end];
  }

  /** What the loop has read and not yet handed out: the chunk that it is about to write. */
  ghost function InHand(s: State): seq<Bytes> {
    if s.upstream.Writing? then [s.upstream.chunk] else []
  }

  /** A client on the list of the live connection is not done and was sent all that was read since it was listed,
      up to the chunk in hand. */
  ghost predicate UpToDate(s: State, cl: Client, k: nat, fetched: seq<Bytes>) {
    && cl.home == Some(k) && cl.closed == 0 && cl.partial == []
    && cl.first <= cl.end <= |fetched| && cl.received == Concat(fetched[cl.first..cl.end])
    && (!s.upstream.Exiting? ==> fetched == fetched[..cl.end] + InHand(s))
  }

  lemma ClientRecord(s: State, c: ClientId)
    requires Sound(s) && c in s.clients
    ensures ClientOK(s, c)
    ensures s.clients[c].home.Some? ==> Contiguous(s.clients[c], Fetched(s, s.clients[c].home.value))
  {
    assert ClientOK(s, c);
    if s.clients[c].home.Some? {
      var k := s.clients[c].home.value;
      assert HandedOut(s, k);
      ContiguousInMore(s.clients[c], s.conns[k].chunks, s.conns[k].fetched);
    }
  }

  lemma ListedRecord(s: State, c: ClientId, k: nat)
    requires Sound(s) && k < |s.conns| && Live(s, k) && c in s.conns[k].clients
    ensures c in s.clients && UpToDate(s, s.clients[c], k, Fetched(s, k))
  {
    assert HandedOut(s, k) && Served(s.clients[c], k, s.conns[k].chunks) && ClientOK(s, c);
    ContiguousInMore(s.clients[c], s.conns[k].chunks, s.conns[k].fetched);
  }

  /** In every reachable state, what each client was sent is a contiguous slice of the chunks read from one
      upstream, from the first chunk handed out after it was last listed, bar a failed last write; what was handed
      out is what was read, but for a chunk in hand, as long as the loop goes on; its `done` was closed at most
      once; no connection lists a client twice; a client on the list of the live connection is not done and was
      sent all that was read since; a client that was listed and not removed is on its list or was told that it is
      done; and a map entry without clients is about to be deleted. */
  lemma EveryRun(steps: seq<Step>)
    requires IsRun(INIT, steps)
    ensures var s := RunFrom(INIT, steps);
            && (forall c | c in s.clients ::
                  && s.clients[c].closed <= 1
                  && (s.clients[c].home.None? ==> s.clients[c].received == [])
                  && (Attached(s.clients[c].stage) ==>
                        s.clients[c].home.Some? && s.clients[c].home.value < |s.conns|
                        && (c in s.conns[s.clients[c].home.value].clients || s.clients[c].closed == 1))
                  && BeginsAt(s, c, LastListing(INIT, steps, c, None))
                  && (s.clients[c].home.Some? ==> Contiguous(s.clients[c], ReadsOf(INIT, steps, s.clients[c].home.value))))
            && (forall k | 0 <= k < |s.conns| && Live(s, k) && !s.upstream.Exiting? ::
                  ReadsOf(INIT, steps, k) == s.conns[k].chunks + InHand(s))
            && (forall k | 0 <= k < |s.conns| :: NoDup(s.conns[k].clients))
            && (forall k, c | 0 <= k < |s.conns| && Live(s, k) && c in s.conns[k].clients ::
                  c in s.clients && UpToDate(s, s.clients[c], k, ReadsOf(INIT, steps, k)))
            && (s.entry.Some? ==> Live(s, s.entry.value) && s.entry.value < |s.conns|)
            && Doomed(s)
  {
    assert Sound(INIT);
    RunKeeps(INIT, steps);
    var s := RunFrom(INIT, steps);
    forall k ensures Fetched(s, k) == ReadsOf(INIT, steps, k) {
      FetchedAreReads(INIT, steps, k);
    }
    forall c | c in s.clients
      ensures ClientOK(s, c) && BeginsAt(s, c, LastListing(INIT, steps, c, None))
      ensures s.clients[c].home.Some? ==> Contiguous(s.clients[c], ReadsOf(INIT, steps, s.clients[c].home.value))
    {
      ClientRecord(s, c);
      BeginsAtLastListing(INIT, steps, c, None);
    }
    forall k | 0 <= k < |s.conns| && Live(s, k) && !s.upstream.Exiting?
      ensures Fetched(s, k) == s.conns[k].chunks + InHand(s)
    {
      assert HandedOut(s, k);
    }
    forall k, c | 0 <= k < |s.conns| && Live(s, k) && c in s.conns[k].clients
      ensures c in s.clients && UpToDate(s, s.clients[c], k, ReadsOf(INIT, steps, k))
    {
      ListedRecord(s, c, k);
    }
  }

  /** A client that was listed and is no longer on the list it was on. */
  ghost predicate Dropped(s: State, c: ClientId) {
    && c in s.clients && s.clients[c].home.Some? && s.clients[c].home.value < |s.conns|
    && Enlisted(s.clients[c].stage) && !s.clients[c].stage.Opening?
    && c !in s.conns[s.clients[c].home.value].clients
  }

  /** Once dropped, by a failed write, a notification or its removal, a client stays off the list, is
      sent nothing more, and its `done` is not closed again. */
  lemma DroppedStays(s: State, step: Step, c: ClientId)
    requires Inv(s) && Enabled(s, step) && Dropped(s, c)
    ensures Dropped(Next(s, step), c)
    ensures Next(s, step).clients[c].received == s.clients[c].received
    ensures Next(s, step).clients[c].closed == s.clients[c].closed
  {
    var h, s' := s.clients[c].home.value, Next(s, step);
    match step
    case JoinAppend(d) => assert d != c;
    case RemoveLocked(d) =>
      var k := s.clients[d].stage.conn;
      WithoutFacts(s.conns[k].clients, d);
    case WriteAll(fails) =>
      NotServed(s, c);
      AliveFacts(s.conns[s.upstream.conn].clients, fails);
    case NotifyAll => NotServed(s, c);
    case _ =>
  }

  lemma NotServed(s: State, c: ClientId)
    requires Inv(s) && Dropped(s, c) && !s.upstream.Idle?
    ensures c !in s.conns[s.upstream.own].clients
  {
    var k := s.upstream.own;
    assert Live(s, k);
    assert c in s.conns[k].clients ==> Served(s.clients[c], k, s.conns[k].chunks);
  }

  lemma {:induction false} DroppedForever(s: State, steps: seq<Step>, c: ClientId)
    requires Inv(s) && IsRun(s, steps) && Dropped(s, c)
    ensures var s' := RunFrom(s, steps);
            && Dropped(s', c)
            && s'.clients[c].received == s.clients[c].received && s'.clients[c].closed == s.clients[c].closed
    decreases |steps|
  {
    if steps != [] {
      StepKeeps(s, steps[0]);
      DroppedStays(s, steps[0], c);
      DroppedForever(Next(s, steps[0]), steps[1..], c);
    }
  }

  lemma OthersDoNotClose(s: State, step: Step, c: ClientId)
    requires Enabled(s, step) && c in s.clients && !step.WriteAll? && !step.NotifyAll?
    ensures Next(s, step).clients[c].closed == s.clients[c].closed
  {
  }

  lemma WritingCloses(s: State, fails: map<ClientId, nat>, c: ClientId)
    requires Pointers(s) && Lists(s) && s.upstream.Writing? && c in s.clients
    ensures var s' := Next(s, WriteAll(fails));
            s'.clients[c].closed != s.clients[c].closed ==>
              && c in s.conns[s.upstream.own].clients && c !in s'.conns[s.upstream.own].clients
              && s'.clients[c].closed == 1
  {
    var k := s.upstream.own;
    AliveFacts(s.conns[k].clients, fails);
    assert Live(s, k);
    assert c in s.conns[k].clients ==> Served(s.clients[c], k, s.conns[k].chunks);
  }

  lemma NotifyingCloses(s: State, c: ClientId)
    requires Pointers(s) && Lists(s) && s.upstream.NotifyFound? && c in s.clients
    ensures var s' := Next(s, NotifyAll);
            s'.clients[c].closed != s.clients[c].closed ==>
              && c in s.conns[s.upstream.own].clients && c !in s'.conns[s.upstream.own].clients
              && s'.clients[c].closed == 1
  {
    var k := s.upstream.own;
    assert Live(s, k);
    assert c in s.conns[k].clients ==> Served(s.clients[c], k, s.conns[k].chunks);
  }

  /** A `done` channel is closed only in the locked step that takes its client off the live list. */
  lemma ClosingDrops(s: State, step: Step, c: ClientId)
    requires Inv(s) && Enabled(s, step) && c in s.clients
    ensures Next(s, step).clients[c].closed != s.clients[c].closed ==>
              && !s.upstream.Idle? && c in s.conns[s.upstream.own].clients
              && c !in Next(s, step).conns[s.upstream.own].clients
              && Next(s, step).clients[c].closed == 1
  {
    if step.WriteAll? {
      WritingCloses(s, step.fails, c);
    } else if step.NotifyAll? {
      NotifyingCloses(s, c);
    } else {
      OthersDoNotClose(s, step, c);
    }
  }

  // ----- The loops under the lock -----

  lemma PrefixFacts(cs: seq<ClientId>, i: nat)
    requires NoDup(cs) && i < |cs|
    ensures cs[i] !in cs[..i] && cs[..i + 1] == cs[..i] + [cs[i]] && cs[..i + 1][..i] == cs[..i]
    ensures forall c :: c in cs[..i + 1] <==> c in cs[..i] || c == cs[i]
  {
  }

  lemma WrittenOneMore(clients: map<ClientId, Client>, cs: seq<ClientId>, i: nat, chunk: Bytes, fails: map<ClientId, nat>)
    requires NoDup(cs) && i < |cs| && cs[i] in clients
    ensures var before := Written(clients, cs[..i], chunk, fails);
            && cs[i] in before
            && Written(clients, cs[..i + 1], chunk, fails) == before[cs[i] := Write(before[cs[i]], chunk, FailOf(fails, cs[i]))]
    ensures Alive(cs[..i + 1], fails) == Alive(cs[..i], fails) + (if cs[i] in fails then [] else [cs[i]])
  {
    PrefixFacts(cs, i);
  }

  /** The write loop of proxyLoop, client by client. */
  method WriteLoop(clients: map<ClientId, Client>, listed: seq<ClientId>, chunk: Bytes, fails: map<ClientId, nat>)
    returns (after: map<ClientId, Client>, alive: seq<ClientId>)
    requires NoDup(listed) && forall i | 0 <= i < |listed| :: listed[i] in clients
    ensures after == Written(clients, listed, chunk, fails)
    ensures alive == Alive(listed, fails)
  {
    after, alive := clients, [];
    for i := 0 to |listed|
      invariant after == Written(clients, listed[..i], chunk, fails)
      invariant alive == Alive(listed[..i], fails)
    {
      var c := listed[i];
      WrittenOneMore(clients, listed, i, chunk, fails);
      after := after[c := Write(after[c], chunk, FailOf(fails, c))];
      if c !in fails {
        alive := alive + [c];
      }
    }
    assert listed[..|listed|] == listed;
  }

  method NotifyLoop(clients: map<ClientId, Client>, listed: seq<ClientId>) returns (after: map<ClientId, Client>)
    requires NoDup(listed) && forall i | 0 <= i < |listed| :: listed[i] in clients
    ensures after == Notified(clients, listed)
  {
    after := clients;
    for i := 0 to |listed|
      invariant after.Keys == clients.Keys
      invariant forall c | c in clients ::
                  after[c] == if c in listed[..i] then clients[c].(closed := clients[c].closed + 1) else clients[c]
    {
      var c := listed[i];
      assert c !in listed[..i];
      assert listed[..i + 1] == listed[..i] + [c];
      after := after[c := after[c].(closed := after[c].closed + 1)];
    }
    assert listed[..|listed|] == listed;
  }

  method RemoveLoop(listed: seq<ClientId>, c: ClientId) returns (left: seq<ClientId>)
    ensures left == Without(listed, c)
  {
    for i := 0 to |listed|
      invariant Without(listed, c) == listed[..i] + Without(listed[i..], c)
    {
      if listed[i] == c {
        return listed[..i] + listed[i + 1..];
      }
      assert listed[i..][1..] == listed[i + 1..];
    }
    return listed;
  }
}
