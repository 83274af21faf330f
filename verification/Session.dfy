/**
 Session affinity: a table of turn counts, first prefix hashes and sticky endpoints, purged lazily.
 Times are nanoseconds on a monotonic clock. A call reads the clock for its purge and once more for
 the rest of its work.
 */
module Session {
  import opened Common

  const TURN_LIMIT: nat := 0x1_0000_0000
  const DEFAULT_SESSION_TTL: nat := 3600 * SECOND

  datatype Key = Key(poolId: string, sessionId: string, epoch: nat)

  datatype Entry = Entry(turnCount: nat, firstPrefixHash: Option<nat>, sticky: Option<string>, lastSeen: nat, ttl: nat)

  function TtlFromSecs(secs: int): nat {
    if secs <= 0 then DEFAULT_SESSION_TTL else secs * SECOND
  }

  predicate Stale(e: Option<Entry>, now: nat) {
    e.Some? && Since(now, e.value.lastSeen) >= e.value.ttl
  }

  // ----- what one call does to one key -----

  datatype Op =
    | GetSticky(ttlSecs: int)
    | NextTurn(prefixHash: Option<nat>, ttlSecs: int)
    | PrefixStable(prefixHash: Option<nat>)
    | RecordSuccess(endpointId: string, prefixHash: Option<nat>, affinityHit: bool, ttlSecs: int)

  datatype Call = Call(key: Key, op: Op, purgedAt: nat, now: nat)

  datatype Answer = Sticky(endpoint: Option<string>) | Turn(index: nat) | Stable(same: Option<bool>) | Done

  predicate Purges(op: Op) {
    op.GetSticky? || op.NextTurn?
  }

  function Kept(e: Option<Entry>, call: Call): Option<Entry> {
    if Purges(call.op) && Stale(e, call.purgedAt) then None else e
  }

  function Created(prefixHash: Option<nat>, now: nat, ttl: nat): Entry {
    Entry(0, prefixHash, None, now, ttl)
  }

  function OnKey(e: Option<Entry>, call: Call, k: Key): Option<Entry> {
    var kept := Kept(e, call);
    if call.key != k then kept
    else
      match call.op
      case NextTurn(h, ttlSecs) =>
        var it := kept.GetOr(Created(h, call.now, TtlFromSecs(ttlSecs)));
        Some(Entry((it.turnCount + 1) % TURN_LIMIT, if it.firstPrefixHash.Some? then it.firstPrefixHash else h,
                   it.sticky, call.now, TtlFromSecs(ttlSecs)))
      case RecordSuccess(endpoint, h, _, ttlSecs) =>
        var it := kept.GetOr(Created(h, call.now, TtlFromSecs(ttlSecs)));
        Some(Entry(it.turnCount, if it.firstPrefixHash.Some? then it.firstPrefixHash else h,
                   if it.sticky.Some? then it.sticky else Some(endpoint), call.now, TtlFromSecs(ttlSecs)))
      case _ => kept
  }

  function Answered(e: Option<Entry>, call: Call): Answer {
    var kept := Kept(e, call);
    match call.op
    case GetSticky(ttlSecs) =>
      Sticky(if kept.None? || Since(call.now, kept.value.lastSeen) >= TtlFromSecs(ttlSecs) then None
          else kept.value.sticky)
    case NextTurn(_, _) => Turn(OnKey(e, call, call.key).value.turnCount)
    case PrefixStable(h) =>
      Stable(if kept.None? || kept.value.firstPrefixHash.None? || h.None? then None
          else Some(kept.value.firstPrefixHash == h))
    case RecordSuccess(_, _, _, _) => Done
  }

  class SessionTable {
    var sessions: map<Key, Entry>

    constructor ()
      ensures sessions == map[]
    {
      sessions := map[];
    }

    function Lookup(key: Key): Option<Entry>
      reads this
    {
      if key in sessions then Some(sessions[key]) else None
    }

    method PurgeStaleSessions(now: nat)
      modifies this
      ensures forall k :: Lookup(k) == if Stale(old(Lookup(k)), now) then None else old(Lookup(k))
    {
      sessions := map k | k in sessions && Since(now, sessions[k].lastSeen) < sessions[k].ttl :: sessions[k];
    }

    method GetStickyEndpoint(key: Key, ttlSecs: int, purgedAt: nat, now: nat) returns (sticky: Option<string>)
      modifies this
      ensures var call := Call(key, GetSticky(ttlSecs), purgedAt, now);
              && (forall k :: Lookup(k) == OnKey(old(Lookup(k)), call, k))
              && Sticky(sticky) == Answered(old(Lookup(key)), call)
    {
      PurgeStaleSessions(purgedAt);
      if key !in sessions {
        return None;
      }
      var entry := sessions[key];
      if Since(now, entry.lastSeen) >= TtlFromSecs(ttlSecs) {
        return None;
      }
      return entry.sticky;
    }

    method NextTurnIndex(key: Key, prefixHash: Option<nat>, ttlSecs: int, purgedAt: nat, now: nat) returns (turn: nat)
      modifies this
      ensures var call := Call(key, NextTurn(prefixHash, ttlSecs), purgedAt, now);
              && (forall k :: Lookup(k) == OnKey(old(Lookup(k)), call, k))
              && Turn(turn) == Answered(old(Lookup(key)), call)
    {
      PurgeStaleSessions(purgedAt);
      var ttl := TtlFromSecs(ttlSecs);
      if key !in sessions {
        sessions := sessions[key := Created(prefixHash, now, ttl)];
      }
      var entry := sessions[key];
      entry := entry.(turnCount := (entry.turnCount + 1) % TURN_LIMIT);
      entry := entry.(lastSeen := now, ttl := ttl);
      if entry.firstPrefixHash.None? {
        entry := entry.(firstPrefixHash := prefixHash);
      }
      sessions := sessions[key := entry];
      return entry.turnCount;
    }

    method IsPrefixStable(key: Key, prefixHash: Option<nat>, now: nat) returns (same: Option<bool>)
      ensures Stable(same) == Answered(Lookup(key), Call(key, PrefixStable(prefixHash), now, now))
    {
      if key !in sessions {
        return None;
      }
      match (sessions[key].firstPrefixHash, prefixHash)
      case (Some(first), Some(current)) => return Some(first == current);
      case _ => return None;
    }

    method RecordSuccessfulRequest(key: Key, endpointId: string, prefixHash: Option<nat>, affinityHit: bool,
                                   ttlSecs: int, now: nat)
      modifies this
      ensures forall k ::
        Lookup(k) == OnKey(old(Lookup(k)),
            Call(key, RecordSuccess(endpointId, prefixHash, affinityHit, ttlSecs), now, now), k)
    {
      var ttl := TtlFromSecs(ttlSecs);
      if key !in sessions {
        sessions := sessions[key := Created(prefixHash, now, ttl)];
      }
      var entry := sessions[key].(lastSeen := now, ttl := ttl);
      if entry.sticky.None? {
        entry := entry.(sticky := Some(endpointId));
      } else if affinityHit {
        entry := entry.(lastSeen := now);
      }
      if entry.firstPrefixHash.None? {
        entry := entry.(firstPrefixHash := prefixHash);
      }
      sessions := sessions[key := entry];
    }
  }

  // ----- runs over many keys -----

  /** The entry under k after a run from the empty table. */
  function After(calls: seq<Call>, k: Key): Option<Entry> {
    if calls == [] then None
    else OnKey(After(calls[..|calls| - 1], k), calls[|calls| - 1], k)
  }

  predicate Writes(call: Call, k: Key) {
    call.key == k && (call.op.NextTurn? || call.op.RecordSuccess?)
  }

  /** The calls that turn or settle session k, oldest first. */
  function WritesTo(calls: seq<Call>, k: Key): seq<Call> {
    if calls == [] then []
    else WritesTo(calls[..|calls| - 1], k) + if Writes(calls[|calls| - 1], k) then [calls[|calls| - 1]] else []
  }

  function CountTurns(calls: seq<Call>): nat {
    if calls == [] then 0 else (if calls[0].op.NextTurn? then 1 else 0) + CountTurns(calls[1..])
  }

  /** The endpoint of the first success. */
  function FirstEndpoint(calls: seq<Call>): Option<string> {
    if calls == [] then None
    else if calls[0].op.RecordSuccess? then Some(calls[0].op.endpointId) else FirstEndpoint(calls[1..])
  }

  /** The first prefix hash that is present. */
  function FirstHash(calls: seq<Call>): Option<nat> {
    if calls == [] then None
    else if (calls[0].op.NextTurn? || calls[0].op.RecordSuccess?)
        && calls[0].op.prefixHash.Some? then calls[0].op.prefixHash
    else FirstHash(calls[1..])
  }

  lemma {:induction false} SummaryAppend(calls: seq<Call>, call: Call)
    ensures CountTurns(calls + [call]) == CountTurns(calls) + CountTurns([call])
    ensures FirstEndpoint(calls + [call]) == if FirstEndpoint(calls).Some? then FirstEndpoint(calls)
            else FirstEndpoint([call])
    ensures FirstHash(calls + [call]) == if FirstHash(calls).Some? then FirstHash(calls) else FirstHash([call])
  {
    if calls == [] {
      assert calls + [call] == [call];
    } else {
      assert (calls + [call])[1..] == calls[1..] + [call];
      SummaryAppend(calls[1..], call);
    }
  }

  ghost predicate IsSummary(e: Option<Entry>, writes: seq<Call>) {
    if writes == [] then e == None
    else
      var last := writes[|writes| - 1];
      && (last.op.NextTurn? || last.op.RecordSuccess?)
      && e == Some(Entry(CountTurns(writes) % TURN_LIMIT, FirstHash(writes), FirstEndpoint(writes),
                         last.now, TtlFromSecs(last.op.ttlSecs)))
  }

  lemma WriteExtendsSummary(e: Option<Entry>, writes: seq<Call>, call: Call, k: Key)
    requires IsSummary(e, writes) && Writes(call, k) && Kept(e, call) == e
    ensures IsSummary(OnKey(e, call, k), writes + [call])
  {
    SummaryAppend(writes, call);
  }

  /** The entry is dropped by call `c` of the run, after lying idle for its whole lifetime. */
  ghost predicate DroppedAt(calls: seq<Call>, c: nat, k: Key) {
    c < |calls| && Purges(calls[c].op) && Stale(After(calls[..c], k), calls[c].purgedAt)
  }

  /**
   After any run over any keys, a session's entry is a summary of its own writes since its creation:
   the turn index counts its turns, the sticky endpoint is that of its first success and the prefix
   hash the first one present. Only idleness for a whole lifetime ends it.
   */
  lemma {:induction false} EntryIsItsOwnHistory(calls: seq<Call>, k: Key) returns (c: nat)
    ensures c <= |calls|
    ensures IsSummary(After(calls, k), WritesTo(calls[c..], k))
    ensures c == 0 || DroppedAt(calls, c, k)
  {
    c := 0;
    if calls == [] {
      return;
    }
    var n := |calls| - 1;
    var init, last := calls[..n], calls[n];
    if DroppedAt(calls, n, k) {
      c := n;
      assert calls[c..] == [last];
      assert [last][..0] == [];
      assert WritesTo([], k) == [];
      if Writes(last, k) {
        WriteExtendsSummary(None, [], last, k);
        assert After(calls, k) == OnKey(None, last, k);
        assert WritesTo([last], k) == [] + [last];
      }
    } else {
      c := EntryIsItsOwnHistory(init, k);
      var since := calls[c..];
      assert since[..n - c] == init[c..] && since[n - c] == last;
      assert c < n ==> calls[..c] == init[..c];
      if Writes(last, k) {
        WriteExtendsSummary(After(init, k), WritesTo(init[c..], k), last, k);
      } else {
        assert WritesTo(since, k) == WritesTo(init[c..], k);
      }
    }
  }

  // ----- sessions beside each other -----

  function OwnCalls(calls: seq<Call>, k: Key): seq<Call> {
    if calls == [] then []
    else OwnCalls(calls[..|calls| - 1], k) + if calls[|calls| - 1].key == k then [calls[|calls| - 1]] else []
  }

  /** What session k would hold if nobody else used the table. */
  function Alone(calls: seq<Call>, k: Key): Option<Entry> {
    After(OwnCalls(calls, k), k)
  }

  lemma AloneStep(calls: seq<Call>, k: Key)
    requires calls != []
    ensures var n := |calls| - 1;
            Alone(calls, k) == if calls[n].key == k then OnKey(Alone(calls[..n], k), calls[n], k)
                else Alone(calls[..n], k)
  {
    var n := |calls| - 1;
    var own := OwnCalls(calls[..n], k);
    assert (own + [calls[n]])[..|own + [calls[n]]| - 1] == own;
    assert own + [] == own;
  }

  /** Clock readings never go back. */
  ghost predicate Ordered(calls: seq<Call>) {
    && (forall i | 0 <= i < |calls| :: calls[i].purgedAt <= calls[i].now)
    && (forall i, j | 0 <= i < j < |calls| :: calls[i].now <= calls[j].purgedAt)
  }

  /** Since session k last wrote or purged, somebody else's call has dropped its stale entry. */
  predicate DroppedByOther(calls: seq<Call>, k: Key) {
    calls != [] &&
    var n := |calls| - 1;
    if calls[n].key == k then DroppedByOther(calls[..n], k) && calls[n].op.PrefixStable?
    else DroppedByOther(calls[..n], k) || (Purges(calls[n].op) && Stale(Alone(calls[..n], k), calls[n].purgedAt))
  }

  /** The table holds for session k what it would hold for it alone, save an early drop. */
  predicate Explained(calls: seq<Call>, k: Key) {
    After(calls, k) == if DroppedByOther(calls, k) then None else Alone(calls, k)
  }

  lemma StaleLater(e: Option<Entry>, t1: nat, t2: nat)
    requires Stale(e, t1) && t1 <= t2
    ensures Stale(e, t2)
  {
  }

  /** Others can drop an entry only once it is stale anyway. */
  lemma {:induction false} OthersOnlyDropStale(calls: seq<Call>, k: Key)
    requires Ordered(calls) && DroppedByOther(calls, k)
    ensures Stale(Alone(calls, k), calls[|calls| - 1].now)
  {
    var n := |calls| - 1;
    var init, last := calls[..n], calls[n];
    AloneStep(calls, k);
    if DroppedByOther(init, k) {
      OthersOnlyDropStale(init, k);
      StaleLater(Alone(init, k), init[n - 1].now, last.purgedAt);
    }
    StaleLater(Alone(init, k), last.purgedAt, last.now);
  }

  /** No turn was counted, and no other endpoint or hash is bound. */
  predicate Blank(e: Entry, call: Call)
    requires call.op.RecordSuccess?
  {
    && e.turnCount == 0
    && (e.sticky.None? || e.sticky == Some(call.op.endpointId))
    && (e.firstPrefixHash.None? || e.firstPrefixHash == call.op.prefixHash)
  }

  /** A late success revives a stale entry but starts afresh if it was dropped before; when the two agree. */
  lemma LateSuccessAgreesIff(e: Entry, call: Call)
    requires call.op.RecordSuccess?
    ensures OnKey(Some(e), call, call.key) == OnKey(None, call, call.key) <==> Blank(e, call)
  {
  }

  /** The success would revive the entry of session k, had somebody else not dropped it. */
  predicate ComesTooLate(before: seq<Call>, call: Call, k: Key) {
    call.key == k && call.op.RecordSuccess? && DroppedByOther(before, k)
  }

  predicate Harmless(before: seq<Call>, call: Call, k: Key) {
    ComesTooLate(before, call, k) ==> Alone(before, k).Some? && Blank(Alone(before, k).value, call)
  }

  /** A success on an entry that is not stale yet never comes too late. */
  lemma TimelySuccessIsHarmless(before: seq<Call>, call: Call)
    requires Ordered(before + [call]) && !Stale(Alone(before, call.key), call.now)
    ensures !ComesTooLate(before, call, call.key)
  {
    if DroppedByOther(before, call.key) {
      DroppedStaysStale(before, call);
    }
  }

  lemma CallIsExplainedIff(calls: seq<Call>, k: Key)
    requires calls != [] && Ordered(calls) && Explained(calls[..|calls| - 1], k)
    ensures Explained(calls, k) <==> Harmless(calls[..|calls| - 1], calls[|calls| - 1], k)
  {
    var n := |calls| - 1;
    var init, last := calls[..n], calls[n];
    AloneStep(calls, k);
    if DroppedByOther(init, k) {
      OthersOnlyDropStale(init, k);
      StaleLater(Alone(init, k), init[n - 1].now, last.purgedAt);
      if ComesTooLate(init, last, k) {
        LateSuccessAgreesIff(Alone(init, k).value, last);
      }
    }
  }

  /** Explained after each call of the run. */
  predicate AlwaysExplained(calls: seq<Call>, k: Key) {
    Explained(calls, k) && (calls != [] ==> AlwaysExplained(calls[..|calls| - 1], k))
  }

  predicate AllHarmless(calls: seq<Call>, k: Key) {
    calls != [] ==>
      && AllHarmless(calls[..|calls| - 1], k)
      && Harmless(calls[..|calls| - 1], calls[|calls| - 1], k)
  }

  /**
   When sessions are independent: all along a run a session sees the table as if it were alone in it,
   save an early drop, if and only if every success that comes too late finds a blank entry.
   */
  lemma {:induction false} SessionsAreIndependentIff(calls: seq<Call>, k: Key)
    requires Ordered(calls)
    ensures AlwaysExplained(calls, k) <==> AllHarmless(calls, k)
  {
    if calls != [] {
      var init := calls[..|calls| - 1];
      SessionsAreIndependentIff(init, k);
      if AlwaysExplained(init, k) {
        CallIsExplainedIff(calls, k);
      }
    }
  }

  /** The next sticky endpoint and the next turn index are then those of a table used by the session alone. */
  lemma SessionsAnswerAsIfAlone(calls: seq<Call>, call: Call)
    requires Ordered(calls + [call]) && Explained(calls, call.key) && Purges(call.op)
    ensures Answered(After(calls, call.key), call) == Answered(Alone(calls, call.key), call)
  {
    if DroppedByOther(calls, call.key) {
      DroppedStaysStale(calls, call);
    }
  }

  lemma DroppedStaysStale(calls: seq<Call>, call: Call)
    requires Ordered(calls + [call]) && DroppedByOther(calls, call.key)
    ensures Stale(Alone(calls, call.key), call.purgedAt) && Stale(Alone(calls, call.key), call.now)
  {
    var all := calls + [call];
    assert forall i | 0 <= i < |calls| :: all[i] == calls[i];
    assert all[|calls|] == call;
    OthersOnlyDropStale(calls, call.key);
    StaleLater(Alone(calls, call.key), calls[|calls| - 1].now, call.purgedAt);
    StaleLater(Alone(calls, call.key), call.purgedAt, call.now);
  }

  // ----- prefix stability -----

  /** Over any run, a prefix is stable when its hash is the first one present since the entry was created. */
  lemma StableMeansFirstHash(calls: seq<Call>, call: Call) returns (c: nat)
    requires call.op.PrefixStable?
    ensures c <= |calls| && (c == 0 || DroppedAt(calls, c, call.key))
    ensures var first := FirstHash(WritesTo(calls[c..], call.key));
            Answered(After(calls, call.key), call)
            == Stable(if first.None? || call.op.prefixHash.None? then None else Some(first == call.op.prefixHash))
  {
    c := EntryIsItsOwnHistory(calls, call.key);
  }

  /** A stability check does not purge, so it sees what others have dropped: when it answers as if alone. */
  lemma StableAnswersAsIfAloneIff(calls: seq<Call>, call: Call)
    requires Ordered(calls + [call]) && Explained(calls, call.key) && call.op.PrefixStable?
    ensures Answered(After(calls, call.key), call) == Answered(Alone(calls, call.key), call) <==>
            !DroppedByOther(calls, call.key) || Answered(Alone(calls, call.key), call) == Stable(None)
    ensures !Stale(Alone(calls, call.key), call.now) ==> !DroppedByOther(calls, call.key)
  {
    if DroppedByOther(calls, call.key) {
      DroppedStaysStale(calls, call);
    }
  }

  /** Right after the session's own turn the check always answers as if alone. */
  lemma StableAfterOwnTurn(calls: seq<Call>, turn: Call, call: Call)
    requires Ordered(calls + [turn]) && Explained(calls, turn.key)
    requires turn.op.NextTurn? && call.op.PrefixStable? && call.key == turn.key
    ensures Explained(calls + [turn], call.key)
    ensures Answered(After(calls + [turn], call.key), call) == Answered(Alone(calls + [turn], call.key), call)
    ensures call.op.prefixHash == turn.op.prefixHash && turn.op.prefixHash.Some? ==>
              Answered(After(calls + [turn], call.key), call).same.Some?
  {
    var all := calls + [turn];
    assert all[..|all| - 1] == calls && all[|all| - 1] == turn;
    CallIsExplainedIff(all, turn.key);
  }

  // ----- two runs in which another session matters -----

  /** The other session's read changes which endpoint is sticky, because a success came too late. */
  lemma LateSuccessSeesOthers(k: Key, other: Key) returns (calls: seq<Call>)
    requires k != other
    ensures Ordered(calls)
    ensures Alone(calls, k).Some? && Alone(calls, k).value.sticky == Some("a")
    ensures After(calls, k).Some? && After(calls, k).value.sticky == Some("b")
  {
    var first := Call(k, RecordSuccess("a", None, false, 1), 0, 0);
    var read := Call(other, GetSticky(1), SECOND, SECOND);
    var late := Call(k, RecordSuccess("b", None, false, 1), SECOND, SECOND);
    calls := [first, read, late];
    DropAfterOneSuccess(first, read);
    assert calls[..2] == [first, read];
    AloneStep(calls, k);
  }

  /** No success is late, and yet a stability check answers none where it would answer yes if alone. */
  lemma StabilitySeesOthers(k: Key, other: Key) returns (calls: seq<Call>, check: Call)
    requires k != other
    ensures Ordered(calls + [check]) && check.key == k && check.op.PrefixStable?
    ensures AllHarmless(calls, k)
    ensures Answered(Alone(calls, k), check) == Stable(Some(true))
    ensures Answered(After(calls, k), check) == Stable(None)
  {
    var first := Call(k, RecordSuccess("a", Some(7), false, 1), 0, 0);
    var read := Call(other, GetSticky(1), SECOND, SECOND);
    calls, check := [first, read], Call(k, PrefixStable(Some(7)), SECOND, SECOND);
    DropAfterOneSuccess(first, read);
    assert calls[..1] == [first];
  }

  lemma DropAfterOneSuccess(first: Call, read: Call)
    requires first.op.RecordSuccess? && first.op.ttlSecs == 1 && first.now == 0
    requires read.op.GetSticky? && read.key != first.key && read.purgedAt == SECOND
    ensures After([first, read], first.key) == None
    ensures Alone([first, read], first.key) == OnKey(None, first, first.key)
  {
    var k := first.key;
    var two, one := [first, read], [first];
    assert two[..1] == one && one[..0] == [];
    assert OwnCalls([], k) == [] && After([], k) == None;
    AloneStep(one, k);
    AloneStep(two, k);
    assert After(one, k) == OnKey(None, first, k);
  }

  // ----- what callers are told -----

  /** A lifetime in seconds, an hour when none is set. */
  function Life(secs: int): nat {
    (if secs <= 0 then 3600 else secs) * 1_000_000_000
  }

  /** The lifetime a write sets. */
  function TtlOf(op: Op): int {
    match op
    case NextTurn(_, ttlSecs) => ttlSecs
    case RecordSuccess(_, _, _, ttlSecs) => ttlSecs
    case _ => 0
  }

  /** Less than its lifetime has passed since the last write. */
  predicate Fresh(writes: seq<Call>, at: nat, secs: int) {
    writes != [] && at < writes[|writes| - 1].now + Life(secs)
  }

  /** A session asked for its sticky endpoint answers with that of its first success, while neither the lifetime it was
      last written with nor the one asked for has passed, and with none after that. */
  lemma StickyAnswer(calls: seq<Call>, call: Call) returns (c: nat)
    requires call.op.GetSticky?
    ensures c <= |calls| && (c == 0 || DroppedAt(calls, c, call.key))
    ensures var w := WritesTo(calls[c..], call.key);
            Answered(After(calls, call.key), call) ==
            Sticky(if w != [] && Fresh(w, call.purgedAt, TtlOf(w[|w| - 1].op)) && Fresh(w, call.now, call.op.ttlSecs)
                   then FirstEndpoint(w) else None)
  {
    c := EntryIsItsOwnHistory(calls, call.key);
  }

  /** The next turn index is one more than the turns counted so far, or one when the session starts afresh. */
  lemma TurnAnswer(calls: seq<Call>, call: Call) returns (c: nat)
    requires call.op.NextTurn?
    ensures c <= |calls| && (c == 0 || DroppedAt(calls, c, call.key))
    ensures var w := WritesTo(calls[c..], call.key);
            Answered(After(calls, call.key), call) ==
            Turn(if w != [] && Fresh(w, call.purgedAt, TtlOf(w[|w| - 1].op)) then (CountTurns(w) + 1) % 0x1_0000_0000
                else 1)
  {
    c := EntryIsItsOwnHistory(calls, call.key);
  }
}
