/** Player sessions, one Discord message each (player_monitor.py): joins, moves and leaves found by
    polling every tracked server. */
module PlayerMonitor {
  import opened Optional
  import opened PackModels

  const MAX_FINALIZE_FAILURES := 3
  const MAX_NAME := 64

  datatype Server = Server(id: string, name: string)
  datatype Location = Location(player: string, server: Server)

  datatype Session = Session(displayName: string, server: Server, messageId: int, startedAt: real,
                             missingSince: Option<real>, finalizeFailures: nat)

  type Sessions = map<string, Session>

  function Lookup(sessions: Sessions, n: string): Option<Session> {
    if n in sessions then Some(sessions[n]) else None
  }

  /** The messenger's answer to an edit: a message id, None, or an exception. */
  datatype Reply = Answered(id: int) | Unanswered | Raised

  /** One poll. At most one edit is sent for a player in a poll; `reached` are the players whose
      turn came before the poll ended, by itself or by an exception. */
  datatype Poll = Poll(now: real, healthy: bool, observed: map<string, seq<Location>>, replies: map<string, Reply>,
                       reached: set<string>)

  function ReplyTo(replies: map<string, Reply>, n: string): Reply {
    if n in replies then replies[n] else Unanswered
  }

  // ---------------------------------------------------------------- what was seen

  /** ASCII white space. */
  predicate Blank(c: char) {
    c == ' ' || 9 <= c as int <= 13 || 28 <= c as int <= 31
  }

  function StripLeft(s: string): string {
    if s != "" && Blank(s[0]) then StripLeft(s[1..]) else s
  }

  function StripRight(s: string): string {
    if s != "" && Blank(s[|s| - 1]) then StripRight(s[..|s| - 1]) else s
  }

  function Strip(s: string): string {
    StripRight(StripLeft(s))
  }

  predicate ValidPlayer(player: string) {
    player != "" && |player| <= MAX_NAME
  }

  /** The sightings one server reports of the player with key n. */
  function SeenAt(server: Server, names: seq<string>, n: string): seq<Location> {
    if names == [] then []
    else
      var before := SeenAt(server, names[..|names| - 1], n);
      var player := Strip(names[|names| - 1]);
      if ValidPlayer(player) && FoldPart(player) == n then before + [Location(player, server)] else before
  }

  function Sightings(servers: seq<Server>, snapshots: seq<Option<seq<string>>>, n: string): seq<Location>
    requires |servers| == |snapshots|
  {
    if servers == [] then []
    else
      var last := |servers| - 1;
      Sightings(servers[..last], snapshots[..last], n)
      + (if snapshots[last].Some? then SeenAt(servers[last], snapshots[last].value, n) else [])
  }

  predicate Healthy(snapshots: seq<Option<seq<string>>>) {
    forall i | 0 <= i < |snapshots| :: snapshots[i].Some?
  }

  /** The poll saw what the snapshots say. */
  ghost predicate Watched(servers: seq<Server>, snapshots: seq<Option<seq<string>>>, healthy: bool,
                          observed: map<string, seq<Location>>)
    requires |servers| == |snapshots|
  {
    && healthy == Healthy(snapshots)
    && forall n :: SeenAs(servers, snapshots, observed, n)
  }

  ghost predicate SeenAs(servers: seq<Server>, snapshots: seq<Option<seq<string>>>,
                         observed: map<string, seq<Location>>, n: string)
    requires |servers| == |snapshots|
  {
    var sightings := Sightings(servers, snapshots, n);
    (n in observed <==> sightings != []) && (n in observed ==> observed[n] == sightings)
  }

  // ---------------------------------------------------------------- what a poll makes of a session

  function AtServer(locations: seq<Location>, id: string): Option<Location> {
    if locations == [] then None
    else if locations[0].server.id == id then Some(locations[0])
    else AtServer(locations[1..], id)
  }

  function Selected(s: Option<Session>, locations: seq<Location>): Location
    requires locations != []
  {
    var same := if s.Some? then AtServer(locations, s.value.server.id) else None;
    if same.Some? then same.value else locations[0]
  }

  /** A session whose final edit failed is over; seeing the player again starts another. */
  function Current(before: Option<Session>): Option<Session> {
    if before.Some? && before.value.finalizeFailures > 0 then None else before
  }

  predicate Moves(before: Option<Session>, locations: seq<Location>)
    requires locations != []
  {
    Current(before).Some? && Selected(Current(before), locations).server.id != before.value.server.id
  }

  /** A player seen on several servers at once has not moved while one of them is the session's. */
  lemma {:induction false} MovesWhenGone(s: Session, locations: seq<Location>)
    requires locations != [] && s.finalizeFailures == 0
    ensures Moves(Some(s), locations) <==> forall l | l in locations :: l.server.id != s.server.id
  {
    AtServerFinds(locations, s.server.id);
    if AtServer(locations, s.server.id).None? { assert locations[0] in locations; }
  }

  lemma {:induction false} AtServerFinds(locations: seq<Location>, id: string)
    ensures var found := AtServer(locations, id);
            if found.Some? then found.value in locations && found.value.server.id == id
            else forall l | l in locations :: l.server.id != id
  {
    if locations != [] && locations[0].server.id != id { AtServerFinds(locations[1..], id); }
  }

  function Observed(before: Option<Session>, locations: seq<Location>, reply: Reply, now: real): Option<Session>
    requires locations != []
  {
    var at := Selected(Current(before), locations);
    if Current(before).None? then
      if reply.Answered? then Some(Session(at.player, at.server, reply.id, now, None, 0)) else None
    else if !Moves(before, locations) then Some(before.value.(displayName := at.player, missingSince := None))
    else if reply.Answered? then
      Some(before.value.(messageId := reply.id, server := at.server, displayName := at.player, missingSince := None))
    else before
  }

  function Since(s: Session, now: real): real {
    if s.missingSince.Some? then s.missingSince.value else now
  }

  predicate Overdue(s: Session, now: real, grace: real) {
    now - Since(s, now) >= grace
  }

  function Missed(s: Session, reply: Reply, now: real, grace: real): Option<Session> {
    var marked := s.(missingSince := Some(Since(s, now)));
    if !Overdue(s, now, grace) || reply.Raised? then Some(marked)
    else if reply.Answered? || s.finalizeFailures + 1 >= MAX_FINALIZE_FAILURES then None
    else Some(marked.(finalizeFailures := s.finalizeFailures + 1))
  }

  predicate ProperPoll(p: Poll) {
    forall n | n in p.observed :: p.observed[n] != []
  }

  function After(before: Option<Session>, p: Poll, grace: real, n: string): Option<Session>
    requires ProperPoll(p)
  {
    if n !in p.reached then before
    else if n in p.observed then Observed(before, p.observed[n], ReplyTo(p.replies, n), p.now)
    else if before.None? then None
    else if p.healthy then Missed(before.value, ReplyTo(p.replies, n), p.now, grace)
    else Some(before.value.(missingSince := None))
  }

  /** The turn of n sends an edit. */
  predicate Sends(before: Option<Session>, p: Poll, grace: real, n: string)
    requires ProperPoll(p)
  {
    if n in p.observed then Current(before).None? || Moves(before, p.observed[n])
    else p.healthy && before.Some? && Overdue(before.value, p.now, grace)
  }

  predicate RaisesAt(before: Sessions, p: Poll, grace: real, n: string)
    requires ProperPoll(p)
  {
    n in p.reached && Sends(Lookup(before, n), p, grace, n) && ReplyTo(p.replies, n).Raised?
  }

  /** Players are dealt with one at a time, those seen first, until all are or an edit raises. */
  ghost predicate Reaches(before: Sessions, p: Poll, grace: real, raised: bool)
    requires ProperPoll(p)
  {
    && p.reached <= p.observed.Keys + before.Keys
    && ((exists n | n in p.reached :: n !in p.observed) ==> p.observed.Keys <= p.reached)
    && (raised <==> exists n :: RaisesAt(before, p, grace, n))
    && (!raised ==> p.reached == p.observed.Keys + before.Keys)
  }

  ghost predicate PollRel(before: Sessions, p: Poll, grace: real, raised: bool, after: Sessions) {
    && ProperPoll(p)
    && Reaches(before, p, grace, raised)
    && forall n :: Lookup(after, n) == After(Lookup(before, n), p, grace, n)
  }

  // ---------------------------------------------------------------- what that means

  /** The first location at this server. */
  predicate FirstAt(locations: seq<Location>, i: int, id: string) {
    && 0 <= i < |locations| && locations[i].server.id == id
    && forall j | 0 <= j < i :: locations[j].server.id != id
  }

  /** A player who is seen. Without a session, or with one that is over, a new one starts if its message is
      sent. One who is still at the session's server stays, and is no longer missing. One who is nowhere there
      has moved, if the message can be edited; otherwise nothing changes. */
  ghost predicate Seen(before: Option<Session>, locations: seq<Location>, reply: Reply, now: real,
                       after: Option<Session>)
    requires locations != []
  {
    var first := locations[0];
    if before.None? || before.value.finalizeFailures > 0 then
      after == if reply.Answered? then Some(Session(first.player, first.server, reply.id, now, None, 0)) else None
    else if forall l | l in locations :: l.server.id != before.value.server.id then
      after == if reply.Answered?
               then Some(Session(first.player, first.server, reply.id, before.value.startedAt, None, 0))
               else before
    else
      exists i :: FirstAt(locations, i, before.value.server.id)
                  && after == Some(before.value.(displayName := locations[i].player, missingSince := None))
  }

  /** A player whom every server says is absent, since t: the session ends when the grace is over and the
      final edit succeeds, or fails for the third time. */
  ghost predicate Gone(before: Session, reply: Reply, now: real, grace: real, after: Option<Session>) {
    var t := if before.missingSince.Some? then before.missingSince.value else now;
    if now - t < grace || reply == Raised then after == Some(before.(missingSince := Some(t)))
    else if reply == Unanswered && before.finalizeFailures < 2 then
      after == Some(before.(missingSince := Some(t), finalizeFailures := before.finalizeFailures + 1))
    else after == None
  }

  ghost predicate Turn(before: Option<Session>, p: Poll, grace: real, n: string, after: Option<Session>)
    requires ProperPoll(p)
  {
    var reply := if n in p.replies then p.replies[n] else Unanswered;
    if n !in p.reached then after == before
    else if n in p.observed then Seen(before, p.observed[n], reply, p.now, after)
    else if before.None? then after == None
    else if p.healthy then Gone(before.value, reply, p.now, grace, after)
    else after == Some(before.value.(missingSince := None))
  }

  lemma ObservedIsSeen(before: Option<Session>, locations: seq<Location>, reply: Reply, now: real)
    requires locations != []
    ensures Seen(before, locations, reply, now, Observed(before, locations, reply, now))
  {
    if before.Some? && before.value.finalizeFailures == 0 {
      MovesWhenGone(before.value, locations);
      AtServerFinds(locations, before.value.server.id);
      if l :| l in locations && l.server.id == before.value.server.id {
        var i := FirstLocation(locations, before.value.server.id);
      }
    }
  }

  lemma {:induction false} FirstLocation(locations: seq<Location>, id: string) returns (i: int)
    requires exists l | l in locations :: l.server.id == id
    ensures FirstAt(locations, i, id) && AtServer(locations, id) == Some(locations[i])
  {
    i := 0;
    if locations[0].server.id != id {
      i := FirstLocation(locations[1..], id);
      i := i + 1;
    }
  }

  lemma MissedIsGone(before: Session, reply: Reply, now: real, grace: real)
    ensures Gone(before, reply, now, grace, Missed(before, reply, now, grace))
  {
  }

  lemma AfterIsTurn(before: Option<Session>, p: Poll, grace: real, n: string)
    requires ProperPoll(p)
    ensures Turn(before, p, grace, n, After(before, p, grace, n))
  {
    if n in p.observed { ObservedIsSeen(before, p.observed[n], ReplyTo(p.replies, n), p.now); }
  }

  /** A leave edit is sent exactly for a session whose player every server says is absent, and has been for
      the grace. */
  lemma LeaveSentMeans(before: Option<Session>, p: Poll, grace: real, n: string)
    requires ProperPoll(p)
    ensures LeaveSent(before, p, grace, n) <==>
              && n in p.reached && n !in p.observed && p.healthy && before.Some?
              && p.now - (if before.value.missingSince.Some? then before.value.missingSince.value else p.now) >= grace
  {
  }

  /** A name is what is left when white space is taken from both ends, and nothing else. */
  lemma StripMeans(s: string)
    ensures exists i, j | 0 <= i <= j <= |s| ::
              && Strip(s) == s[i..j] && (i < j ==> !Blank(s[i]) && !Blank(s[j - 1]))
              && (forall k | 0 <= k < i || j <= k < |s| :: Blank(s[k]))
  {
    var i := LeftStripped(s);
    var j := RightStripped(s[i..]);
    assert Strip(s) == s[i..i + j];
    assert forall k | i <= k < |s| :: s[k] == s[i..][k - i];
  }

  lemma {:induction false} LeftStripped(s: string) returns (i: nat)
    ensures i <= |s| && StripLeft(s) == s[i..] && (i < |s| ==> !Blank(s[i]))
    ensures forall k | 0 <= k < i :: Blank(s[k])
  {
    i := 0;
    if s != "" && Blank(s[0]) {
      i := LeftStripped(s[1..]);
      i := i + 1;
      assert forall k | 1 <= k < i :: s[k] == s[1..][k - 1];
    }
  }

  lemma {:induction false} RightStripped(s: string) returns (j: nat)
    ensures j <= |s| && StripRight(s) == s[..j] && (j > 0 ==> !Blank(s[j - 1]))
    ensures forall k | j <= k < |s| :: Blank(s[k])
  {
    j := |s|;
    if s != "" && Blank(s[|s| - 1]) {
      j := RightStripped(s[..|s| - 1]);
      assert forall k | j <= k < |s| - 1 :: s[k] == s[..|s| - 1][k];
    }
  }

  /** The player with key n was seen at a server that answered, under a name of 1 to 64 characters. */
  ghost predicate SightedAt(servers: seq<Server>, snapshots: seq<Option<seq<string>>>, n: string, l: Location)
    requires |servers| == |snapshots|
  {
    exists i | 0 <= i < |servers| ::
      l.server == servers[i] && snapshots[i].Some? && NamedIn(snapshots[i].value, n, l.player)
  }

  ghost predicate NamedIn(names: seq<string>, n: string, player: string) {
    1 <= |player| <= 64 && FoldPart(player) == n && exists name | name in names :: player == Strip(name)
  }

  lemma {:induction false} SeenAtMeans(server: Server, names: seq<string>, n: string, l: Location)
    ensures l in SeenAt(server, names, n) <==> l.server == server && NamedIn(names, n, l.player)
  {
    if names != [] {
      SeenAtMeans(server, names[..|names| - 1], n, l);
      assert names == names[..|names| - 1] + [names[|names| - 1]];
    }
  }

  lemma {:induction false} SightingsMean(servers: seq<Server>, snapshots: seq<Option<seq<string>>>, n: string,
                                         l: Location)
    requires |servers| == |snapshots|
    ensures l in Sightings(servers, snapshots, n) <==> SightedAt(servers, snapshots, n, l)
  {
    if servers != [] {
      var last := |servers| - 1;
      SightingsMean(servers[..last], snapshots[..last], n, l);
      if snapshots[last].Some? { SeenAtMeans(servers[last], snapshots[last].value, n, l); }
      SightedOneMore(servers, snapshots, n, l);
    }
  }

  lemma SightedOneMore(servers: seq<Server>, snapshots: seq<Option<seq<string>>>, n: string, l: Location)
    requires |servers| == |snapshots| && servers != []
    ensures var last := |servers| - 1;
            SightedAt(servers, snapshots, n, l) <==>
              || SightedAt(servers[..last], snapshots[..last], n, l)
              || (l.server == servers[last] && snapshots[last].Some? && NamedIn(snapshots[last].value, n, l.player))
  {
    var last := |servers| - 1;
    if i :| 0 <= i < last && l.server == servers[i] && snapshots[i].Some? && NamedIn(snapshots[i].value, n, l.player) {
      assert servers[..last][i] == servers[i] && snapshots[..last][i] == snapshots[i];
    }
  }

  /** What a poll saw: whether every server answered, and for each player exactly where. */
  ghost predicate Saw(servers: seq<Server>, snapshots: seq<Option<seq<string>>>, p: Poll)
    requires |servers| == |snapshots|
  {
    && (p.healthy <==> forall i | 0 <= i < |snapshots| :: snapshots[i] != None)
    && (forall n, l :: n in p.observed && l in p.observed[n] <==> SightedAt(servers, snapshots, n, l))
  }

  lemma WatchedIsSaw(servers: seq<Server>, snapshots: seq<Option<seq<string>>>, p: Poll)
    requires |servers| == |snapshots| && Watched(servers, snapshots, p.healthy, p.observed)
    ensures Saw(servers, snapshots, p)
  {
    forall n, l ensures n in p.observed && l in p.observed[n] <==> SightedAt(servers, snapshots, n, l) {
      assert SeenAs(servers, snapshots, p.observed, n);
      SightingsMean(servers, snapshots, n, l);
    }
  }

  // ---------------------------------------------------------------- the monitor

  class PlayerPresenceMonitor {
    const leaveGraceSeconds: real
    var servers: seq<Server>
    var sessions: Sessions

    constructor (grace: real, servers: seq<Server>, restored: Sessions)
      ensures leaveGraceSeconds == grace && this.servers == servers && sessions == restored
    {
      leaveGraceSeconds := grace;
      this.servers := servers;
      sessions := restored;
    }

    /** Groups the valid names of all snapshots by player. */
    method Gather(snapshots: seq<Option<seq<string>>>)
      returns (healthy: bool, observed: map<string, seq<Location>>, order: seq<string>)
      requires |snapshots| == |servers|
      ensures Watched(servers, snapshots, healthy, observed)
      ensures Listed(order, observed.Keys)
    {
      healthy, observed, order := true, map[], [];
      for i := 0 to |servers|
        invariant Watched(servers[..i], snapshots[..i], healthy, observed)
        invariant Listed(order, observed.Keys)
      {
        ghost var former, earlier := healthy, observed;
        if snapshots[i].None? {
          healthy := false;
        } else {
          observed, order := GatherServer(servers[i], snapshots[i].value, observed, order);
        }
        OneMoreServer(servers, snapshots, i, former, earlier, healthy, observed);
      }
      assert servers[..|servers|] == servers && snapshots[..|servers|] == snapshots;
    }

    method GatherServer(server: Server, names: seq<string>,
                        earlier: map<string, seq<Location>>, earlierOrder: seq<string>)
      returns (observed: map<string, seq<Location>>, order: seq<string>)
      requires Listed(earlierOrder, earlier.Keys)
      ensures Listed(order, observed.Keys)
      ensures forall n :: Added(earlier, SeenAt(server, names, n), observed, n)
    {
      observed, order := earlier, earlierOrder;
      for j := 0 to |names|
        invariant forall n :: Added(earlier, SeenAt(server, names[..j], n), observed, n)
        invariant Listed(order, observed.Keys)
      {
        assert names[..j + 1][..j] == names[..j];
        var player := Strip(names[j]);
        if ValidPlayer(player) {
          var n := FoldPart(player);
          if n !in observed { order := order + [n]; }
          observed := observed[n := Found(observed, n) + [Location(player, server)]];
        }
      }
      assert names[..|names|] == names;
    }

    method SelectLocation(session: Option<Session>, locations: seq<Location>) returns (location: Location)
      requires locations != []
      ensures location == Selected(session, locations)
    {
      if session.Some? {
        for i := 0 to |locations|
          invariant AtServer(locations, session.value.server.id) == AtServer(locations[i..], session.value.server.id)
        {
          if locations[i].server.id == session.value.server.id { return locations[i]; }
        }
      }
      location := locations[0];
    }

    /** The turn of a player who was seen. */
    method SeeOne(n: string, locations: seq<Location>, reply: Reply, now: real) returns (raised: bool)
      requires locations != []
      modifies `sessions
      ensures Lookup(sessions, n) == Observed(Lookup(old(sessions), n), locations, reply, now)
      ensures Seen(Lookup(old(sessions), n), locations, reply, now, Lookup(sessions, n))
      ensures forall m | m != n :: Lookup(sessions, m) == Lookup(old(sessions), m)
      ensures raised <==>
                reply.Raised? && (Current(Lookup(old(sessions), n)).None? || Moves(Lookup(old(sessions), n), locations))
    {
      ObservedIsSeen(Lookup(sessions, n), locations, reply, now);
      var session := Lookup(sessions, n);
      if session.Some? && session.value.finalizeFailures > 0 {
        sessions := sessions - {n};
        session := None;
      }
      var location := SelectLocation(session, locations);
      if session.None? {
        if !reply.Answered? { return reply.Raised?; }
        sessions := sessions[n := Session(location.player, location.server, reply.id, now, None, 0)];
        return false;
      }
      var s := session.value;
      if s.server.id != location.server.id {
        if !reply.Answered? { return reply.Raised?; }
        s := s.(messageId := reply.id, server := location.server);
      }
      sessions := sessions[n := s.(displayName := location.player, missingSince := None)];
      raised := false;
    }

    /** The turn of a player who was not, when every server answered. */
    method MissOne(n: string, reply: Reply, now: real) returns (raised: bool)
      requires n in sessions
      modifies `sessions
      ensures Lookup(sessions, n) == Missed(old(sessions)[n], reply, now, leaveGraceSeconds)
      ensures Gone(old(sessions)[n], reply, now, leaveGraceSeconds, Lookup(sessions, n))
      ensures forall m | m != n :: Lookup(sessions, m) == Lookup(old(sessions), m)
      ensures raised <==> reply.Raised? && Overdue(old(sessions)[n], now, leaveGraceSeconds)
    {
      var s := sessions[n];
      if s.missingSince.None? { s := s.(missingSince := Some(now)); }
      sessions := sessions[n := s];
      if now - s.missingSince.value < leaveGraceSeconds { return false; }
      match reply {
        case Raised => return true;
        case Answered(_) => sessions := sessions - {n};
        case Unanswered =>
          s := s.(finalizeFailures := s.finalizeFailures + 1);
          sessions := if s.finalizeFailures >= MAX_FINALIZE_FAILURES then sessions - {n} else sessions[n := s];
      }
      raised := false;
    }

    /** The turns of the players who were seen. */
    method SeeAll(order: seq<string>, ghost q: Poll, observed: map<string, seq<Location>>,
                  replies: map<string, Reply>, now: real)
      returns (raised: bool, ghost p: Poll)
      requires ProperPoll(q) && Listed(order, observed.Keys) && q == Poll(now, q.healthy, observed, replies, {})
      modifies `sessions
      ensures p == q.(reached := p.reached) && p.reached <= observed.Keys
      ensures Turned(old(sessions), p, leaveGraceSeconds, raised, sessions)
      ensures !raised ==> p.reached == observed.Keys
    {
      p := q;
      ghost var before := sessions;
      for i := 0 to |order|
        invariant p == q.(reached := Elements(order[..i]))
        invariant Turned(before, p, leaveGraceSeconds, false, sessions)
      {
        var n := order[i];
        NotYet(order, i);
        ghost var former, last := sessions, p;
        p := p.(reached := p.reached + {n});
        raised := SeeOne(n, observed[n], ReplyTo(replies, n), now);
        TurnTaken(before, last, p, leaveGraceSeconds, n, former, sessions, raised);
        if raised { return; }
      }
      assert order[..|order|] == order;
      raised := false;
    }

    /** The turns of the players who were not seen. */
    method MissAll(ghost before: Sessions, ghost q: Poll, healthy: bool, absent: set<string>,
                   replies: map<string, Reply>, now: real)
      returns (raised: bool, ghost p: Poll)
      requires ProperPoll(q) && q.healthy == healthy && q.replies == replies && q.now == now
      requires q.reached == q.observed.Keys && absent == before.Keys - q.observed.Keys
      requires Turned(before, q, leaveGraceSeconds, false, sessions)
      modifies `sessions
      ensures p == q.(reached := p.reached) && q.reached <= p.reached <= q.reached + absent
      ensures Turned(before, p, leaveGraceSeconds, raised, sessions)
      ensures !raised ==> p.reached == q.reached + absent
    {
      p := q;
      var pending := absent;
      while pending != {}
        invariant pending <= absent
        invariant p == q.(reached := q.reached + (absent - pending))
        invariant Turned(before, p, leaveGraceSeconds, false, sessions)
      {
        var n :| n in pending;
        assert Lookup(sessions, n) == Lookup(before, n);
        ghost var former, last := sessions, p;
        pending := pending - {n};
        p := p.(reached := p.reached + {n});
        raised := false;
        if healthy {
          raised := MissOne(n, ReplyTo(replies, n), now);
        } else if sessions[n].missingSince.Some? {
          sessions := sessions[n := sessions[n].(missingSince := None)];
        }
        TurnTaken(before, last, p, leaveGraceSeconds, n, former, sessions, raised);
        if raised { return; }
      }
      raised := false;
    }

    /** `poll_once`: what it saw, and what became of every session. */
    method PollOnce(snapshots: seq<Option<seq<string>>>, replies: map<string, Reply>, now: real)
      returns (raised: bool, ghost p: Poll)
      requires |snapshots| == |servers|
      modifies `sessions
      ensures p.now == now && p.replies == replies && Watched(servers, snapshots, p.healthy, p.observed)
      ensures PollRel(old(sessions), p, leaveGraceSeconds, raised, sessions)
      ensures Saw(servers, snapshots, p)
      ensures forall n :: Turn(Lookup(old(sessions), n), p, leaveGraceSeconds, n, Lookup(sessions, n))
    {
      raised, p := TakeTurns(snapshots, replies, now);
      WatchedIsSaw(servers, snapshots, p);
      forall n ensures Turn(Lookup(old(sessions), n), p, leaveGraceSeconds, n, Lookup(sessions, n)) {
        AfterIsTurn(Lookup(old(sessions), n), p, leaveGraceSeconds, n);
      }
    }

    method TakeTurns(snapshots: seq<Option<seq<string>>>, replies: map<string, Reply>, now: real)
      returns (raised: bool, ghost p: Poll)
      requires |snapshots| == |servers|
      modifies `sessions
      ensures p.now == now && p.replies == replies && Watched(servers, snapshots, p.healthy, p.observed)
      ensures PollRel(old(sessions), p, leaveGraceSeconds, raised, sessions)
    {
      var healthy, observed, order := Gather(snapshots);
      p := Poll(now, healthy, observed, replies, {});
      WatchedIsProper(servers, snapshots, p);
      raised, p := SeeAll(order, p, observed, replies, now);
      if raised { return; }
      AbsentKept(old(sessions), p, leaveGraceSeconds, sessions);
      raised, p := MissAll(old(sessions), p, healthy, sessions.Keys - observed.Keys, replies, now);
    }
  }

  /** The turns taken so far have had their effect, and only the last may have raised. */
  ghost predicate Turned(before: Sessions, p: Poll, grace: real, raised: bool, s: Sessions)
    requires ProperPoll(p)
  {
    && (forall n :: Lookup(s, n) == After(Lookup(before, n), p, grace, n))
    && (raised <==> exists n :: RaisesAt(before, p, grace, n))
  }

  lemma TurnTaken(before: Sessions, p: Poll, p': Poll, grace: real, n: string, s: Sessions, s': Sessions, raised: bool)
    requires ProperPoll(p) && p' == p.(reached := p.reached + {n}) && n !in p.reached
    requires Turned(before, p, grace, false, s)
    requires Lookup(s', n) == After(Lookup(before, n), p', grace, n)
    requires forall m | m != n :: Lookup(s', m) == Lookup(s, m)
    requires raised <==> Sends(Lookup(before, n), p', grace, n) && ReplyTo(p'.replies, n).Raised?
    ensures Turned(before, p', grace, raised, s')
  {
    forall m ensures Lookup(s', m) == After(Lookup(before, m), p', grace, m) {
      if m != n { assert Lookup(s, m) == After(Lookup(before, m), p, grace, m); }
    }
    assert RaisesAt(before, p', grace, n) <==> raised;
    forall m | m != n ensures !RaisesAt(before, p', grace, m) { assert !RaisesAt(before, p, grace, m); }
  }

  lemma AbsentKept(before: Sessions, p: Poll, grace: real, s: Sessions)
    requires ProperPoll(p) && p.reached == p.observed.Keys && Turned(before, p, grace, false, s)
    ensures s.Keys - p.observed.Keys == before.Keys - p.observed.Keys
  {
    forall n | n !in p.observed ensures n in s <==> n in before {
      assert Lookup(s, n) == After(Lookup(before, n), p, grace, n);
    }
  }

  /** `observed` holds what `earlier` held of n, followed by `more`. */
  ghost predicate Added(earlier: map<string, seq<Location>>, more: seq<Location>,
                        observed: map<string, seq<Location>>, n: string) {
    var all := Found(earlier, n) + more;
    (n in observed <==> (n in earlier || more != [])) && (n in observed ==> observed[n] == all)
  }

  lemma OneMoreServer(servers: seq<Server>, snapshots: seq<Option<seq<string>>>, i: nat, former: bool,
                      earlier: map<string, seq<Location>>, healthy: bool, observed: map<string, seq<Location>>)
    requires |servers| == |snapshots| && i < |servers|
    requires Watched(servers[..i], snapshots[..i], former, earlier)
    requires healthy == (former && snapshots[i].Some?)
    requires if snapshots[i].None? then observed == earlier
             else forall n :: Added(earlier, SeenAt(servers[i], snapshots[i].value, n), observed, n)
    ensures Watched(servers[..i + 1], snapshots[..i + 1], healthy, observed)
  {
    assert snapshots[..i + 1] == snapshots[..i] + [snapshots[i]];
    var servers', snapshots' := servers[..i + 1], snapshots[..i + 1];
    forall n ensures SeenAs(servers', snapshots', observed, n) {
      OneMoreSighting(servers, snapshots, i, n);
      assert SeenAs(servers[..i], snapshots[..i], earlier, n);
      if snapshots[i].Some? { assert Added(earlier, SeenAt(servers[i], snapshots[i].value, n), observed, n); }
    }
  }

  lemma WatchedIsProper(servers: seq<Server>, snapshots: seq<Option<seq<string>>>, p: Poll)
    requires |servers| == |snapshots| && Watched(servers, snapshots, p.healthy, p.observed)
    ensures ProperPoll(p)
  {
    forall n | n in p.observed ensures p.observed[n] != [] {
      assert SeenAs(servers, snapshots, p.observed, n);
    }
  }

  lemma OneMoreSighting(servers: seq<Server>, snapshots: seq<Option<seq<string>>>, i: nat, n: string)
    requires |servers| == |snapshots| && i < |servers|
    ensures Sightings(servers[..i + 1], snapshots[..i + 1], n)
         == Sightings(servers[..i], snapshots[..i], n)
            + (if snapshots[i].Some? then SeenAt(servers[i], snapshots[i].value, n) else [])
  {
    assert servers[..i + 1][..i] == servers[..i] && snapshots[..i + 1][..i] == snapshots[..i];
  }

  function Found(observed: map<string, seq<Location>>, n: string): seq<Location> {
    if n in observed then observed[n] else []
  }

  ghost function Elements(order: seq<string>): set<string> {
    set n | n in order
  }

  /** The keys of a dictionary in some order, each once. */
  ghost predicate Listed(order: seq<string>, keys: set<string>) {
    Elements(order) == keys && forall i, j | 0 <= i < j < |order| :: order[i] != order[j]
  }

  lemma NotYet(order: seq<string>, i: nat)
    requires i < |order| && Listed(order, Elements(order))
    ensures order[i] !in Elements(order[..i]) && Elements(order[..i + 1]) == Elements(order[..i]) + {order[i]}
  {
    assert order[..i + 1] == order[..i] + [order[i]];
  }

  // ---------------------------------------------------------------- the leave grace, over whole runs

  ghost predicate Step(before: Sessions, p: Poll, grace: real, after: Sessions) {
    exists raised :: PollRel(before, p, grace, raised, after)
  }

  ghost predicate Run(states: seq<Sessions>, polls: seq<Poll>, grace: real) {
    |states| == |polls| + 1 && forall i | 0 <= i < |polls| :: Step(states[i], polls[i], grace, states[i + 1])
  }

  /** Every tracked server answered and none had the player. */
  predicate Confirmed(p: Poll, n: string) {
    p.healthy && n !in p.observed
  }

  /** The poll should have cleared the player's missing_since and did not: the edit of a move did not
      succeed, or an exception ended the poll first. */
  predicate Slipped(before: Option<Session>, p: Poll, n: string)
    requires ProperPoll(p)
  {
    if n in p.reached
    then n in p.observed && Moves(before, p.observed[n]) && !ReplyTo(p.replies, n).Answered?
    else !Confirmed(p, n)
  }

  predicate LeaveSent(before: Option<Session>, p: Poll, grace: real, n: string)
    requires ProperPoll(p)
  {
    n in p.reached && n !in p.observed && Sends(before, p, grace, n)
  }

  /** A session stays marked missing, since the same time, exactly when the player was confirmed
      absent and the session not ended, or the poll slipped. */
  lemma MarkKept(s: Session, p: Poll, grace: real, n: string)
    requires ProperPoll(p) && s.missingSince.Some?
    ensures var after := After(Some(s), p, grace, n);
            && ((after.Some? && after.value.missingSince.Some?)
                <==> Slipped(Some(s), p, n) || (Confirmed(p, n) && after.Some?))
            && (after.Some? && after.value.missingSince.Some? ==> after.value.missingSince == s.missingSince)
  {
  }

  /** missing_since was set to t in poll i, or was t when the run began. */
  predicate Began(states: seq<Sessions>, polls: seq<Poll>, n: string, i: nat, t: real) {
    || (i == 0 && states != [] && n in states[0] && states[0][n].missingSince == Some(t))
    || (i < |polls| && polls[i].now == t && Confirmed(polls[i], n))
  }

  ghost predicate Kept(states: seq<Sessions>, polls: seq<Poll>, n: string, j: nat)
    requires j < |polls| < |states| && ProperPoll(polls[j])
  {
    Confirmed(polls[j], n) || Slipped(Lookup(states[j], n), polls[j], n)
  }

  ghost predicate KeptBetween(states: seq<Sessions>, polls: seq<Poll>, n: string, i: nat, k: nat) {
    k <= |polls| < |states| && forall j | i <= j < k :: ProperPoll(polls[j]) && Kept(states, polls, n, j)
  }

  lemma {:induction false} MissingWindow(states: seq<Sessions>, polls: seq<Poll>, grace: real, n: string, k: nat,
                                       t: real)
    returns (i: nat)
    requires Run(states, polls, grace) && k <= |polls| && n in states[k] && states[k][n].missingSince == Some(t)
    ensures i <= k && (i == k ==> k == 0) && Began(states, polls, n, i, t) && KeptBetween(states, polls, n, i, k)
    ensures forall j | i <= j <= k :: n in states[j]
  {
    if k == 0 { return 0; }
    assert Step(states[k - 1], polls[k - 1], grace, states[k]);
    var before, p := Lookup(states[k - 1], n), polls[k - 1];
    assert Lookup(states[k], n) == After(before, p, grace, n);
    if before.Some? && before.value.missingSince.Some? {
      MarkKept(before.value, p, grace, n);
      i := MissingWindow(states, polls, grace, n, k - 1, t);
    } else {
      i := k - 1;
    }
  }

  /** Every edit for a player who was seen went through. */
  ghost predicate EditsSucceed(p: Poll) {
    forall m | m in p.observed :: ReplyTo(p.replies, m).Answered?
  }

  /** A poll slips only if the edit of some player who was seen did not go through: it then left that
      player's session as it was, or ended before it came to others. */
  lemma SlipsOnlyOnFailedEdit(before: Sessions, p: Poll, grace: real, after: Sessions, n: string)
    requires Step(before, p, grace, after) && n in before && ProperPoll(p) && EditsSucceed(p)
    ensures !Slipped(Lookup(before, n), p, n)
  {
    var raised :| PollRel(before, p, grace, raised, after);
    if n !in p.reached {
      assert raised;
      var m :| RaisesAt(before, p, grace, m);
      assert m !in p.observed;
    }
  }

  /** A leave edit is sent only when the grace has passed since poll i, and from poll i on each poll
      either confirmed the absence or slipped. So the promised grace was kept, every one of those
      polls confirming the absence, if and only if none of them slipped; and it is kept whenever the
      join and move edits of those polls succeed. */
  lemma LeaveGrace(states: seq<Sessions>, polls: seq<Poll>, grace: real, n: string, k: nat) returns (i: nat, t: real)
    requires Run(states, polls, grace) && k < |polls| && ProperPoll(polls[k])
    requires LeaveSent(Lookup(states[k], n), polls[k], grace, n)
    ensures i <= k && Began(states, polls, n, i, t) && polls[k].now - t >= grace && Confirmed(polls[k], n)
    ensures KeptBetween(states, polls, n, i, k)
    ensures (forall j | i <= j <= k :: Confirmed(polls[j], n))
       <==> (forall j | i <= j < k :: !Slipped(Lookup(states[j], n), polls[j], n))
    ensures (forall j | i <= j < k :: EditsSucceed(polls[j])) ==> forall j | i <= j <= k :: Confirmed(polls[j], n)
  {
    t := Since(states[k][n], polls[k].now);
    if states[k][n].missingSince.None? {
      i := k;
    } else {
      i := MissingWindow(states, polls, grace, n, k, t);
    }
    forall j | i <= j < k ensures Confirmed(polls[j], n) <==> !Slipped(Lookup(states[j], n), polls[j], n) {
      assert Kept(states, polls, n, j);
    }
    if forall j | i <= j < k :: EditsSucceed(polls[j]) {
      forall j | i <= j < k ensures !Slipped(Lookup(states[j], n), polls[j], n) {
        assert Step(states[j], polls[j], grace, states[j + 1]);
        SlipsOnlyOnFailedEdit(states[j], polls[j], grace, states[j + 1], n);
      }
    }
  }

  /** It can fail. A player is missing at second 5, is seen on another server at second 14 while the
      edit of the move fails, and at second 15 is said to have left, with a grace of 10. */
  lemma LeaveWithoutGrace() returns (states: seq<Sessions>, polls: seq<Poll>)
    ensures Run(states, polls, 10.0) && |polls| == 4 && ProperPoll(polls[2]) && ProperPoll(polls[3])
    ensures LeaveSent(Lookup(states[3], "alex"), polls[3], 10.0, "alex")
    ensures "alex" in polls[2].observed && polls[3].now - polls[2].now == 1.0
  {
    var a, b := Server("a", "A"), Server("b", "B");
    var joined := Session("Alex", a, 1, 0.0, None, 0);
    var missing := joined.(missingSince := Some(5.0));
    var reached := {"alex"};
    var p0 := Poll(0.0, true, map["alex" := [Location("Alex", a)]], map["alex" := Answered(1)], reached);
    var p1 := Poll(5.0, true, map[], map[], reached);
    var p2 := Poll(14.0, true, map["alex" := [Location("Alex", b)]], map[], reached);
    var p3 := Poll(15.0, true, map[], map["alex" := Answered(1)], reached);
    var s0: Sessions, s1: Sessions, s2: Sessions := map[], map["alex" := joined], map["alex" := missing];
    assert PollRel(s0, p0, 10.0, false, s1);
    assert PollRel(s1, p1, 10.0, false, s2);
    assert a.id[0] != b.id[0];
    MovesWhenGone(missing, p2.observed["alex"]);
    assert PollRel(s2, p2, 10.0, false, s2);
    assert PollRel(s2, p3, 10.0, false, s0);
    states, polls := [s0, s1, s2, s2, s0], [p0, p1, p2, p3];
  }

  /** Leave edits of n in polls i..k-1 that the messenger answered with None. */
  ghost function FailedLeaves(states: seq<Sessions>, polls: seq<Poll>, grace: real, n: string, i: nat, k: nat): nat
    requires i <= k <= |polls| < |states| && forall j | i <= j < k :: ProperPoll(polls[j])
    decreases k
  {
    if k == i then 0
    else FailedLeaves(states, polls, grace, n, i, k - 1)
         + (if LeaveSent(Lookup(states[k - 1], n), polls[k - 1], grace, n)
               && ReplyTo(polls[k - 1].replies, n).Unanswered? then 1 else 0)
  }

  /** While an absent player's session lasts, its count is that of the failed leave edits, and the
      third ends the session. */
  lemma {:induction false} ThreeAttempts(states: seq<Sessions>, polls: seq<Poll>, grace: real, n: string,
                                       i: nat, k: nat)
    requires Run(states, polls, grace) && i <= k <= |polls|
    requires forall j | i <= j < k :: n !in polls[j].observed
    requires forall j | i <= j <= k :: n in states[j]
    requires states[i][n].finalizeFailures < MAX_FINALIZE_FAILURES
    ensures forall j | i <= j < k :: ProperPoll(polls[j])
    ensures states[k][n].finalizeFailures == states[i][n].finalizeFailures + FailedLeaves(states, polls, grace, n, i, k)
    ensures states[k][n].finalizeFailures < MAX_FINALIZE_FAILURES
  {
    if k > i {
      ThreeAttempts(states, polls, grace, n, i, k - 1);
      assert Step(states[k - 1], polls[k - 1], grace, states[k]);
      assert Lookup(states[k], n) == After(Lookup(states[k - 1], n), polls[k - 1], grace, n);
    }
  }
}
