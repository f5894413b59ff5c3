/** The enrichment cache: concurrent lookups of one address share a keyed token, so that at most one
    of them asks the providers, and a cached row is asked for again only after its time to live. */
module SingleFlight {
  import opened Common

  type Handle = nat

  /** A cached reputation row; what the providers said is left abstract. */
  datatype Reputation = Reputation(content: nat, firstSeen: int, refreshedAt: int)

  /** An enrichmentKey object: tokens is what its channel of capacity one holds. */
  datatype Key = Key(ip: Ip, tokens: nat, refs: int)

  datatype Pc =
    | ReadCache
    | TakeReference
    | WaitToken(key: Handle)
    | Recheck(key: Handle)
    | WaitSlot(key: Handle, cached: Option<Reputation>)
    | FanOut(key: Handle, cached: Option<Reputation>)
    | Save(key: Handle, cached: Option<Reputation>, renewed: Reputation)
    | ReleaseSlot(key: Handle)
    | ReturnToken(key: Handle)
    | DropReference(key: Handle)

  datatype Call = Call(ip: Ip, pc: Pc)

  /** saves is the history of successful saves of an address, oldest first. */
  datatype State = State(
    keys: map<Ip, Handle>,
    heap: map<Handle, Key>,
    calls: map<Handle, Call>,
    slots: nat,
    cache: map<Ip, Reputation>,
    saves: map<Ip, seq<Reputation>>,
    now: int,
    next: Handle,
    ttl: int,
    capacity: nat)

  datatype Step = Begin(ip: Ip) | Pass(delta: nat) | Go(t: Handle, content: nat) | Fails(t: Handle)

  function Goto(s: State, t: Handle, pc: Pc): State
    requires t in s.calls
  {
    s.(calls := s.calls[t := s.calls[t].(pc := pc)])
  }

  function CachedRow(s: State, ip: Ip): Option<Reputation> {
    if ip in s.cache then Some(s.cache[ip]) else None
  }

  predicate Fresh(s: State, row: Option<Reputation>) {
    row.Some? && s.now - row.value.refreshedAt < s.ttl
  }

  function SavesOf(s: State, ip: Ip): seq<Reputation> {
    if ip in s.saves then s.saves[ip] else []
  }

  /** The critical section of acquireKey. */
  function Reference(s: State, t: Handle): State
    requires t in s.calls
  {
    var ip := s.calls[t].ip;
    if ip in s.keys && s.keys[ip] in s.heap then
      var k := s.keys[ip];
      Goto(s, t, WaitToken(k)).(heap := s.heap[k := s.heap[k].(refs := s.heap[k].refs + 1)])
    else
      Goto(s, t, WaitToken(s.next))
        .(keys := s.keys[ip := s.next], heap := s.heap[s.next := Key(ip, 1, 1)], next := s.next + 1)
  }

  function SetTokens(s: State, k: Handle, tokens: nat): State
    requires k in s.heap
  {
    s.(heap := s.heap[k := s.heap[k].(tokens := tokens)])
  }

  /** releaseKeyReference; the call returns after it. */
  function Dereference(s: State, t: Handle, k: Handle): State
    requires t in s.calls && k in s.heap
  {
    var ip := s.calls[t].ip;
    var refs := s.heap[k].refs - 1;
    s.(calls := s.calls - {t}, heap := s.heap[k := s.heap[k].(refs := refs)],
       keys := if refs == 0 && ip in s.keys && s.keys[ip] == k then s.keys - {ip} else s.keys)
  }

  /** The upsert keeps the first_seen column of an existing row. */
  function Upsert(s: State, ip: Ip, renewed: Reputation): State {
    var row := if ip in s.cache then renewed.(firstSeen := s.cache[ip].firstSeen) else renewed;
    s.(cache := s.cache[ip := row], saves := s.saves[ip := SavesOf(s, ip) + [renewed]])
  }

  predicate CanGo(s: State, t: Handle) {
    t in s.calls &&
    match s.calls[t].pc
    case ReadCache | TakeReference | Recheck(_) | FanOut(_, _) | Save(_, _, _) | ReleaseSlot(_) => true
    case WaitToken(k) => k in s.heap && 0 < s.heap[k].tokens
    case WaitSlot(_, _) => 0 < s.slots
    case ReturnToken(k) => k in s.heap && s.heap[k].tokens == 0
    case DropReference(k) => k in s.heap
  }

  function Advance(s: State, t: Handle, content: nat): State
    requires CanGo(s, t)
  {
    var ip := s.calls[t].ip;
    match s.calls[t].pc
    case ReadCache => if Fresh(s, CachedRow(s, ip)) then s.(calls := s.calls - {t}) else Goto(s, t, TakeReference)
    case TakeReference => Reference(s, t)
    case WaitToken(k) => SetTokens(Goto(s, t, Recheck(k)), k, s.heap[k].tokens - 1)
    case Recheck(k) =>
      if Fresh(s, CachedRow(s, ip)) then Goto(s, t, ReturnToken(k)) else Goto(s, t, WaitSlot(k, CachedRow(s, ip)))
    case WaitSlot(k, cached) => Goto(s, t, FanOut(k, cached)).(slots := s.slots - 1)
    case FanOut(k, cached) =>
      Goto(s, t, Save(k, cached, Reputation(content, if cached.Some? then cached.value.firstSeen else s.now, s.now)))
    case Save(k, _, renewed) => Goto(Upsert(s, ip, renewed), t, ReleaseSlot(k))
    case ReleaseSlot(k) => Goto(s, t, ReturnToken(k)).(slots := s.slots + 1)
    case ReturnToken(k) => SetTokens(Goto(s, t, DropReference(k)), k, s.heap[k].tokens + 1)
    case DropReference(k) => Dereference(s, t, k)
  }

  /** A store read fails, the caller's context ends while it waits, or the save fails. */
  predicate CanFail(s: State, t: Handle) {
    t in s.calls &&
    match s.calls[t].pc
    case ReadCache | WaitToken(_) | Recheck(_) | WaitSlot(_, _) | Save(_, _, _) => true
    case _ => false
  }

  function Fail(s: State, t: Handle): State
    requires CanFail(s, t)
  {
    match s.calls[t].pc
    case ReadCache => s.(calls := s.calls - {t})
    case WaitToken(k) => Goto(s, t, DropReference(k))
    case Recheck(k) => Goto(s, t, ReturnToken(k))
    case WaitSlot(k, _) => Goto(s, t, ReturnToken(k))
    case Save(k, _, _) => Goto(s, t, ReleaseSlot(k))
  }

  predicate Enabled(s: State, step: Step) {
    match step
    case Begin(_) => true
    case Pass(_) => true
    case Go(t, _) => CanGo(s, t)
    case Fails(t) => CanFail(s, t)
  }

  function Apply(s: State, step: Step): State
    requires Enabled(s, step)
  {
    match step
    case Begin(ip) => s.(calls := s.calls[s.next := Call(ip, ReadCache)], next := s.next + 1)
    case Pass(delta) => s.(now := s.now + delta)
    case Go(t, content) => Advance(s, t, content)
    case Fails(t) => Fail(s, t)
  }

  /** The process starts with whatever rows the cache table holds. */
  predicate Init(s: State) {
    && s.keys == map[] && s.heap == map[] && s.calls == map[] && s.saves == map[]
    && s.slots == s.capacity && 0 < s.ttl
  }

  // ----- Invariant -----

  /** The key object the call holds a reference to. */
  predicate Refers(pc: Pc, k: Handle) {
    !pc.ReadCache? && !pc.TakeReference? && pc.key == k
  }

  /** The call took the key's token and has not returned it. */
  predicate Holds(pc: Pc, k: Handle) {
    Refers(pc, k) && !pc.WaitToken? && !pc.DropReference?
  }

  /** The call occupies one of the process-wide slots. */
  predicate Occupies(pc: Pc) { pc.FanOut? || pc.Save? || pc.ReleaseSlot? }

  function Referrers(s: State, k: Handle): set<Handle> {
    set t | t in s.calls && Refers(s.calls[t].pc, k)
  }

  function Holders(s: State, k: Handle): set<Handle> {
    set t | t in s.calls && Holds(s.calls[t].pc, k)
  }

  function Occupants(s: State): set<Handle> {
    set t | t in s.calls && Occupies(s.calls[t].pc)
  }

  /** A key object is in the map exactly while it is referenced, and its token is either in the
      channel or with one call. */
  predicate KeyOk(s: State, k: Handle)
    requires k in s.heap
  {
    var key := s.heap[k];
    && k < s.next && 0 <= key.refs == |Referrers(s, k)|
    && (0 < key.refs <==> key.ip in s.keys && s.keys[key.ip] == k)
    && key.tokens + |Holders(s, k)| == 1
  }

  predicate KeysOk(s: State) {
    && (forall k {:trigger KeyOk(s, k)} | k in s.heap :: KeyOk(s, k))
    && (forall ip | ip in s.keys :: s.keys[ip] in s.heap && s.heap[s.keys[ip]].ip == ip)
  }

  /** The row a lookup decided on is still the stored row, and it is old enough to be replaced. */
  predicate Stale(s: State, ip: Ip, cached: Option<Reputation>) {
    cached == CachedRow(s, ip) && (cached.Some? ==> s.now - cached.value.refreshedAt >= s.ttl)
  }

  predicate CallOk(s: State, t: Handle)
    requires t in s.calls
  {
    var c := s.calls[t];
    && t < s.next
    && (!c.pc.ReadCache? && !c.pc.TakeReference? ==> c.pc.key in s.heap && s.heap[c.pc.key].ip == c.ip)
    && (c.pc.WaitSlot? || c.pc.FanOut? || c.pc.Save? ==> Stale(s, c.ip, c.pc.cached))
    && (c.pc.Save? ==> Renews(c.pc.renewed, c.pc.cached, s.ttl) && c.pc.renewed.refreshedAt <= s.now)
  }

  /** A new row follows an old one by at least the time to live and keeps its first-seen time. */
  predicate Renews(renewed: Reputation, before: Option<Reputation>, ttl: int) {
    match before
    case Some(row) => renewed.refreshedAt - row.refreshedAt >= ttl && renewed.firstSeen == row.firstSeen
    case None => renewed.firstSeen == renewed.refreshedAt
  }

  predicate CallsOk(s: State) {
    forall t {:trigger CallOk(s, t)} | t in s.calls :: CallOk(s, t)
  }

  /** The last save is the stored row, and each save renews the one before it. */
  predicate SavesOk(s: State, ip: Ip) {
    var saves := SavesOf(s, ip);
    && (saves != [] ==> ip in s.cache && s.cache[ip] == saves[|saves| - 1])
    && forall i | 0 <= i < |saves| - 1 :: Renews(saves[i + 1], Some(saves[i]), s.ttl)
  }

  ghost predicate HistoryOk(s: State) {
    forall ip {:trigger SavesOk(s, ip)} :: SavesOk(s, ip)
  }

  predicate SlotsOk(s: State) {
    s.slots + |Occupants(s)| == s.capacity
  }

  ghost predicate Inv(s: State) {
    0 < s.ttl && KeysOk(s) && CallsOk(s) && HistoryOk(s) && SlotsOk(s)
  }

  // ----- Counting referrers, holders and occupants -----

  function Bit(b: bool): nat { if b then 1 else 0 }

  /** Call t is now at pc, or gone. */
  predicate Places(s: State, s': State, t: Handle, pc: Option<Pc>) {
    match pc
    case Some(at) => t in s'.calls && s'.calls == s.calls[t := s'.calls[t]] && s'.calls[t].pc == at
    case None => s'.calls == s.calls - {t}
  }

  predicate Now(pc: Option<Pc>, k: Handle) { pc.Some? && Refers(pc.value, k) }

  predicate NowHolds(pc: Option<Pc>, k: Handle) { pc.Some? && Holds(pc.value, k) }

  predicate Busy(pc: Option<Pc>) { pc.Some? && Occupies(pc.value) }

  function PcOf(s: State, t: Handle): Option<Pc> {
    if t in s.calls then Some(s.calls[t].pc) else None
  }

  /** Two sets that may differ in one element. */
  lemma CountMoved(before: set<Handle>, after: set<Handle>, t: Handle)
    requires before - {t} == after - {t}
    ensures |after| == |before| + Bit(t in after) - Bit(t in before)
  {
    assert after == (if t in after then after - {t} + {t} else after - {t});
    assert before == (if t in before then before - {t} + {t} else before - {t});
  }

  lemma CountReferrers(s: State, s': State, t: Handle, pc: Option<Pc>, k: Handle)
    requires Places(s, s', t, pc)
    ensures |Referrers(s', k)| == |Referrers(s, k)| + Bit(Now(pc, k)) - Bit(Now(PcOf(s, t), k))
  {
    assert Referrers(s, k) - {t} == Referrers(s', k) - {t};
    CountMoved(Referrers(s, k), Referrers(s', k), t);
  }

  lemma CountHolders(s: State, s': State, t: Handle, pc: Option<Pc>, k: Handle)
    requires Places(s, s', t, pc)
    ensures |Holders(s', k)| == |Holders(s, k)| + Bit(NowHolds(pc, k)) - Bit(NowHolds(PcOf(s, t), k))
  {
    assert Holders(s, k) - {t} == Holders(s', k) - {t};
    CountMoved(Holders(s, k), Holders(s', k), t);
  }

  lemma CountOccupants(s: State, s': State, t: Handle, pc: Option<Pc>)
    requires Places(s, s', t, pc)
    ensures |Occupants(s')| == |Occupants(s)| + Bit(Busy(pc)) - Bit(Busy(PcOf(s, t)))
  {
    assert Occupants(s) - {t} == Occupants(s') - {t};
    CountMoved(Occupants(s), Occupants(s'), t);
  }

  lemma Counted(s: State, s': State, t: Handle, pc: Option<Pc>, k: Handle)
    requires Places(s, s', t, pc)
    ensures |Referrers(s', k)| == |Referrers(s, k)| + Bit(Now(pc, k)) - Bit(Now(PcOf(s, t), k))
    ensures |Holders(s', k)| == |Holders(s, k)| + Bit(NowHolds(pc, k)) - Bit(NowHolds(PcOf(s, t), k))
  {
    CountReferrers(s, s', t, pc, k);
    CountHolders(s, s', t, pc, k);
  }

  // ----- Actions that leave keys and tokens alone -----

  /** The call keeps its reference and its token, if any. */
  ghost predicate KeepsKey(s: State, s': State, t: Handle, pc: Option<Pc>) {
    && Places(s, s', t, pc) && s'.keys == s.keys && s'.heap == s.heap && s.next <= s'.next
    && forall k :: Now(pc, k) == Now(PcOf(s, t), k) && NowHolds(pc, k) == NowHolds(PcOf(s, t), k)
  }

  lemma KeysKept(s: State, s': State, t: Handle, pc: Option<Pc>)
    requires KeysOk(s) && KeepsKey(s, s', t, pc)
    ensures KeysOk(s')
  {
    forall k | k in s'.heap ensures KeyOk(s', k) {
      assert KeyOk(s, k);
      Counted(s, s', t, pc, k);
    }
  }

  lemma SlotsKept(s: State, s': State, t: Handle, pc: Option<Pc>)
    requires SlotsOk(s) && Places(s, s', t, pc) && s'.capacity == s.capacity
    requires s'.slots + Bit(Busy(pc)) == s.slots + Bit(Busy(PcOf(s, t)))
    ensures SlotsOk(s')
  {
    CountOccupants(s, s', t, pc);
  }

  /** Rows and history stay, keys keep their address. */
  predicate RowsKept(s: State, s': State) {
    && s'.cache == s.cache && s'.saves == s.saves && s'.ttl == s.ttl && s.now <= s'.now && s.next <= s'.next
    && forall k | k in s.heap :: k in s'.heap && s'.heap[k].ip == s.heap[k].ip
  }

  lemma CallsKept(s: State, s': State, t: Handle)
    requires CallsOk(s) && RowsKept(s, s')
    requires forall u | u in s'.calls && u != t :: u in s.calls && s'.calls[u] == s.calls[u]
    requires t in s'.calls ==> CallOk(s', t)
    ensures CallsOk(s')
  {
    forall u | u in s'.calls && u != t ensures CallOk(s', u) {
      assert CallOk(s, u);
    }
  }

  lemma HistoryKept(s: State, s': State)
    requires HistoryOk(s) && s'.cache == s.cache && s'.saves == s.saves && s'.ttl == s.ttl
    ensures HistoryOk(s')
  {
    forall ip ensures SavesOk(s', ip) {
      assert SavesOk(s, ip);
    }
  }

  /** An action that moves one call without touching keys, tokens or rows. */
  lemma MoveKeeps(s: State, s': State, t: Handle, pc: Option<Pc>)
    requires Inv(s) && KeepsKey(s, s', t, pc) && RowsKept(s, s') && s'.capacity == s.capacity
    requires s'.slots + Bit(Busy(pc)) == s.slots + Bit(Busy(PcOf(s, t)))
    requires t in s'.calls ==> CallOk(s', t)
    ensures Inv(s')
  {
    KeysKept(s, s', t, pc);
    SlotsKept(s, s', t, pc);
    CallsKept(s, s', t);
    HistoryKept(s, s');
  }

  /** An action that also changes keys or tokens. */
  lemma KeyMoveKeeps(s: State, s': State, t: Handle, pc: Option<Pc>)
    requires Inv(s) && Places(s, s', t, pc) && RowsKept(s, s') && s'.capacity == s.capacity && s'.slots == s.slots
    requires !Busy(pc) && !Busy(PcOf(s, t))
    requires KeysOk(s') && (t in s'.calls ==> CallOk(s', t))
    ensures Inv(s')
  {
    SlotsKept(s, s', t, pc);
    CallsKept(s, s', t);
    HistoryKept(s, s');
  }

  // ----- acquireKey and its release -----

  lemma NewKeyOk(s: State, s': State, t: Handle)
    requires KeysOk(s) && CallsOk(s) && t in s.calls && s.calls[t].pc == TakeReference && s.calls[t].ip !in s.keys
    requires s' == Reference(s, t)
    ensures KeysOk(s') && s.next !in s.heap
  {
    assert s.next in s.heap ==> KeyOk(s, s.next);
    forall k | k in s'.heap ensures KeyOk(s', k) {
      Counted(s, s', t, Some(WaitToken(s.next)), k);
      if k == s.next {
        Unreferenced(s, k);
      } else {
        assert KeyOk(s, k);
      }
    }
  }

  lemma Unreferenced(s: State, k: Handle)
    requires CallsOk(s) && k !in s.heap
    ensures Referrers(s, k) == {} && Holders(s, k) == {}
  {
    forall t | t in s.calls ensures !Refers(s.calls[t].pc, k) {
      assert CallOk(s, t);
    }
  }

  lemma SharedKeyOk(s: State, s': State, t: Handle)
    requires KeysOk(s) && t in s.calls && s.calls[t].pc == TakeReference && s.calls[t].ip in s.keys
    requires s' == Reference(s, t)
    ensures KeysOk(s')
  {
    var shared := s.keys[s.calls[t].ip];
    forall k | k in s'.heap ensures KeyOk(s', k) {
      assert KeyOk(s, k);
      Counted(s, s', t, Some(WaitToken(shared)), k);
    }
  }

  lemma ReferenceKeeps(s: State, t: Handle)
    requires Inv(s) && t in s.calls && s.calls[t].pc == TakeReference
    ensures Inv(Reference(s, t))
  {
    var s' := Reference(s, t);
    assert CallOk(s, t);
    if s.calls[t].ip in s.keys {
      SharedKeyOk(s, s', t);
    } else {
      NewKeyOk(s, s', t);
    }
    KeyMoveKeeps(s, s', t, Some(s'.calls[t].pc));
  }

  lemma TokenMovesOk(s: State, s': State, t: Handle, pc: Pc, k: Handle)
    requires KeysOk(s) && t in s.calls && k in s.heap && Places(s, s', t, Some(pc)) && s'.keys == s.keys && s.next == s'.next
    requires k in s'.heap && s'.heap == s.heap[k := s.heap[k].(tokens := s'.heap[k].tokens)]
    requires Refers(s.calls[t].pc, k) && Refers(pc, k)
    requires s'.heap[k].tokens + Bit(Holds(pc, k)) == s.heap[k].tokens + Bit(Holds(s.calls[t].pc, k))
    ensures KeysOk(s')
  {
    forall j | j in s'.heap ensures KeyOk(s', j) {
      assert KeyOk(s, j);
      Counted(s, s', t, Some(pc), j);
    }
  }

  lemma TakeTokenKeeps(s: State, t: Handle, k: Handle)
    requires Inv(s) && t in s.calls && s.calls[t].pc == WaitToken(k) && k in s.heap && 0 < s.heap[k].tokens
    ensures Inv(SetTokens(Goto(s, t, Recheck(k)), k, s.heap[k].tokens - 1))
  {
    var s' := SetTokens(Goto(s, t, Recheck(k)), k, s.heap[k].tokens - 1);
    assert CallOk(s, t);
    TokenMovesOk(s, s', t, Recheck(k), k);
    KeyMoveKeeps(s, s', t, Some(Recheck(k)));
  }

  lemma ReturnTokenKeeps(s: State, t: Handle, k: Handle)
    requires Inv(s) && t in s.calls && s.calls[t].pc == ReturnToken(k) && k in s.heap
    ensures Inv(SetTokens(Goto(s, t, DropReference(k)), k, s.heap[k].tokens + 1))
  {
    var s' := SetTokens(Goto(s, t, DropReference(k)), k, s.heap[k].tokens + 1);
    assert CallOk(s, t);
    TokenMovesOk(s, s', t, DropReference(k), k);
    KeyMoveKeeps(s, s', t, Some(DropReference(k)));
  }

  lemma DroppedKeyOk(s: State, s': State, t: Handle, k: Handle)
    requires KeysOk(s) && t in s.calls && s.calls[t].pc == DropReference(k) && k in s.heap && s.heap[k].ip == s.calls[t].ip
    requires s' == Dereference(s, t, k)
    ensures KeysOk(s')
  {
    assert KeyOk(s, k);
    Counted(s, s', t, None, k);
    forall j | j in s'.heap ensures KeyOk(s', j) {
      assert KeyOk(s, j);
      Counted(s, s', t, None, j);
    }
  }

  lemma DereferenceKeeps(s: State, t: Handle, k: Handle)
    requires Inv(s) && t in s.calls && s.calls[t].pc == DropReference(k) && k in s.heap
    ensures Inv(Dereference(s, t, k))
  {
    assert CallOk(s, t);
    DroppedKeyOk(s, Dereference(s, t, k), t, k);
    KeyMoveKeeps(s, Dereference(s, t, k), t, None);
  }

  // ----- Saving -----

  /** Two calls for one address cannot hold the token at the same time. */
  lemma OneHolder(s: State, t: Handle, u: Handle, k: Handle, j: Handle)
    requires KeysOk(s) && CallsOk(s) && t in s.calls && u in s.calls && s.calls[t].ip == s.calls[u].ip
    requires Holds(s.calls[t].pc, k) && Holds(s.calls[u].pc, j)
    ensures t == u && k == j
  {
    assert CallOk(s, t) && CallOk(s, u) && KeyOk(s, k) && KeyOk(s, j);
    Member(Referrers(s, k), t);
    Member(Referrers(s, j), u);
    assert k == j;
    if t != u {
      assert {t, u} <= Holders(s, k);
      Two(Holders(s, k), t, u);
    }
  }

  lemma Member<T>(set0: set<T>, x: T)
    requires x in set0
    ensures 0 < |set0|
  {
  }

  lemma Two<T>(set0: set<T>, x: T, y: T)
    requires x in set0 && y in set0 && x != y
    ensures 2 <= |set0|
  {
    Member(set0 - {x}, y);
  }

  predicate SavesRow(s: State, s': State, t: Handle, k: Handle, renewed: Reputation)
    requires t in s.calls
  {
    s' == Goto(Upsert(s, s.calls[t].ip, renewed), t, ReleaseSlot(k))
  }

  lemma SavedHistoryOk(s: State, s': State, t: Handle, k: Handle, cached: Option<Reputation>, renewed: Reputation)
    requires HistoryOk(s) && t in s.calls && CallOk(s, t) && s.calls[t].pc == Save(k, cached, renewed)
    requires SavesRow(s, s', t, k, renewed)
    ensures HistoryOk(s')
  {
    forall ip ensures SavesOk(s', ip) {
      assert SavesOk(s, ip);
    }
  }

  lemma SavedCallsOk(s: State, s': State, t: Handle, k: Handle, cached: Option<Reputation>, renewed: Reputation)
    requires KeysOk(s) && CallsOk(s) && t in s.calls && s.calls[t].pc == Save(k, cached, renewed)
    requires SavesRow(s, s', t, k, renewed)
    ensures CallsOk(s')
  {
    forall u | u in s'.calls ensures CallOk(s', u) {
      assert CallOk(s, u);
      var pc := s.calls[u].pc;
      if u != t && s.calls[u].ip == s.calls[t].ip && (pc.WaitSlot? || pc.FanOut? || pc.Save?) {
        OneHolder(s, t, u, k, pc.key);
      }
    }
  }

  lemma SaveKeeps(s: State, t: Handle, k: Handle, cached: Option<Reputation>, renewed: Reputation)
    requires Inv(s) && t in s.calls && s.calls[t].pc == Save(k, cached, renewed)
    ensures Inv(Goto(Upsert(s, s.calls[t].ip, renewed), t, ReleaseSlot(k)))
  {
    var s' := Goto(Upsert(s, s.calls[t].ip, renewed), t, ReleaseSlot(k));
    assert CallOk(s, t);
    SavedHistoryOk(s, s', t, k, cached, renewed);
    SavedCallsOk(s, s', t, k, cached, renewed);
    KeysKept(s, s', t, Some(ReleaseSlot(k)));
    SlotsKept(s, s', t, Some(ReleaseSlot(k)));
  }

  // ----- Every action -----

  lemma AdvanceKeeps(s: State, t: Handle, content: nat)
    requires Inv(s) && CanGo(s, t)
    ensures Inv(Advance(s, t, content))
  {
    match s.calls[t].pc
    case TakeReference => ReferenceKeeps(s, t);
    case WaitToken(k) => TakeTokenKeeps(s, t, k);
    case Save(k, cached, renewed) => SaveKeeps(s, t, k, cached, renewed);
    case ReturnToken(k) => ReturnTokenKeeps(s, t, k);
    case DropReference(k) => DereferenceKeeps(s, t, k);
    case ReadCache => CheckKeeps(s, t, content);
    case Recheck(_) => CheckKeeps(s, t, content);
    case _ => SlotMoveKeeps(s, t, content);
  }

  lemma CheckKeeps(s: State, t: Handle, content: nat)
    requires Inv(s) && CanGo(s, t) && (s.calls[t].pc.ReadCache? || s.calls[t].pc.Recheck?)
    ensures Inv(Advance(s, t, content))
  {
    var s' := Advance(s, t, content);
    assert CallOk(s, t);
    MoveKeeps(s, s', t, PcOf(s', t));
  }

  lemma SlotMoveKeeps(s: State, t: Handle, content: nat)
    requires Inv(s) && CanGo(s, t)
    requires s.calls[t].pc.WaitSlot? || s.calls[t].pc.FanOut? || s.calls[t].pc.ReleaseSlot?
    ensures Inv(Advance(s, t, content))
  {
    var s' := Advance(s, t, content);
    assert CallOk(s, t);
    MoveKeeps(s, s', t, PcOf(s', t));
  }

  lemma FailKeeps(s: State, t: Handle)
    requires Inv(s) && CanFail(s, t)
    ensures Inv(Fail(s, t))
  {
    assert CallOk(s, t);
    MoveKeeps(s, Fail(s, t), t, PcOf(Fail(s, t), t));
  }

  lemma StepKeepsInv(s: State, step: Step)
    requires Inv(s) && Enabled(s, step)
    ensures Inv(Apply(s, step))
  {
    match step
    case Begin(ip) =>
      assert s.next in s.calls ==> CallOk(s, s.next);
      MoveKeeps(s, Apply(s, step), s.next, Some(ReadCache));
    case Pass(delta) => PassKeeps(s, Apply(s, step));
    case Go(t, content) => AdvanceKeeps(s, t, content);
    case Fails(t) => FailKeeps(s, t);
  }

  lemma PassKeeps(s: State, s': State)
    requires Inv(s) && s' == s.(now := s'.now) && s.now <= s'.now
    ensures Inv(s')
  {
    forall k | k in s'.heap ensures KeyOk(s', k) {
      assert KeyOk(s, k) && Referrers(s', k) == Referrers(s, k) && Holders(s', k) == Holders(s, k);
    }
    forall t | t in s'.calls ensures CallOk(s', t) {
      assert CallOk(s, t);
    }
    HistoryKept(s, s');
    assert Occupants(s') == Occupants(s);
  }

  // ----- Results -----

  ghost predicate StepAt(states: seq<State>, steps: seq<Step>, i: nat)
    requires i + 1 < |states| && i < |steps|
  {
    Enabled(states[i], steps[i]) && states[i + 1] == Apply(states[i], steps[i])
  }

  ghost predicate IsRun(states: seq<State>, steps: seq<Step>) {
    && |states| == |steps| + 1 && Init(states[0])
    && forall i {:trigger StepAt(states, steps, i)} | 0 <= i < |steps| :: StepAt(states, steps, i)
  }

  lemma {:induction false} RunKeepsInv(states: seq<State>, steps: seq<Step>, i: nat)
    requires IsRun(states, steps) && i < |states|
    ensures Inv(states[i])
  {
    if i == 0 {
      assert Occupants(states[0]) == {};
    } else {
      RunKeepsInv(states, steps, i - 1);
      assert StepAt(states, steps, i - 1);
      StepKeepsInv(states[i - 1], steps[i - 1]);
    }
  }

  /** The call is between taking the key's token and returning it. */
  predicate InCriticalSection(s: State, t: Handle) {
    t in s.calls && var pc := s.calls[t].pc; !pc.ReadCache? && !pc.TakeReference? && Holds(pc, pc.key)
  }

  /** In every run: at most one lookup of an address is in its critical section, the key objects in the
      map are exactly the referenced ones, returning a token never blocks, and no more lookups fan out
      than there are slots. */
  lemma SingleFlightHolds(states: seq<State>, steps: seq<Step>, i: nat)
    requires IsRun(states, steps) && i < |states|
    ensures var s := states[i];
            && (forall t, u | InCriticalSection(s, t) && InCriticalSection(s, u) && s.calls[t].ip == s.calls[u].ip :: t == u)
            && (forall k | k in s.heap :: 0 < s.heap[k].refs <==> k in s.keys.Values)
            && (forall t | t in s.calls && s.calls[t].pc.ReturnToken? :: CanGo(s, t))
            && |Occupants(s)| <= s.capacity
  {
    RunKeepsInv(states, steps, i);
    var s := states[i];
    forall t, u | InCriticalSection(s, t) && InCriticalSection(s, u) && s.calls[t].ip == s.calls[u].ip ensures t == u {
      OneHolder(s, t, u, s.calls[t].pc.key, s.calls[u].pc.key);
    }
    forall k | k in s.heap ensures 0 < s.heap[k].refs <==> k in s.keys.Values {
      assert KeyOk(s, k);
    }
    forall t | t in s.calls && s.calls[t].pc.ReturnToken? ensures CanGo(s, t) {
      ReturnNeverBlocks(s, t);
    }
  }

  lemma ReturnNeverBlocks(s: State, t: Handle)
    requires Inv(s) && t in s.calls && s.calls[t].pc.ReturnToken?
    ensures CanGo(s, t)
  {
    var k := s.calls[t].pc.key;
    assert CallOk(s, t) && KeyOk(s, k);
    Member(Holders(s, k), t);
  }

  /** Successive saves of an address are at least one time to live apart and keep its first-seen time. */
  lemma {:induction false} SavesApart(states: seq<State>, steps: seq<Step>, i: nat, ip: Ip, a: nat, b: nat)
    requires IsRun(states, steps) && i < |states| && a < b < |SavesOf(states[i], ip)|
    ensures var saves := SavesOf(states[i], ip);
            && saves[b].refreshedAt - saves[a].refreshedAt >= (b - a) * states[i].ttl
            && saves[b].firstSeen == saves[a].firstSeen
    decreases b - a
  {
    RunKeepsInv(states, steps, i);
    var s := states[i];
    assert SavesOk(s, ip);
    var saves := SavesOf(s, ip);
    assert Renews(saves[b - 1 + 1], Some(saves[b - 1]), s.ttl);
    if a + 1 < b {
      SavesApart(states, steps, i, ip, a, b - 1);
      assert (b - a) * s.ttl == (b - 1 - a) * s.ttl + s.ttl;
    }
  }

  /** A lookup that goes on from its recheck to the providers does so at least one time to live after the
      refresh of every row saved for its address, the last of which is the row it replaces. */
  lemma FanOutAfterTtl(states: seq<State>, steps: seq<Step>, i: nat, t: Handle, a: nat)
    requires IsRun(states, steps) && i < |states| && t in states[i].calls
    requires states[i].calls[t].pc.WaitSlot? || states[i].calls[t].pc.FanOut? || states[i].calls[t].pc.Save?
    requires a < |SavesOf(states[i], states[i].calls[t].ip)|
    ensures var s := states[i];
            var saves := SavesOf(s, s.calls[t].ip);
            && s.now - saves[a].refreshedAt >= s.ttl
            && s.calls[t].pc.cached == Some(saves[|saves| - 1])
  {
    RunKeepsInv(states, steps, i);
    var s := states[i];
    var saves := SavesOf(s, s.calls[t].ip);
    assert CallOk(s, t) && SavesOk(s, s.calls[t].ip);
    if a < |saves| - 1 {
      SavesApart(states, steps, i, s.calls[t].ip, a, |saves| - 1);
      ApartNonNegative(|saves| - 1 - a, s.ttl);
    }
  }

  lemma ApartNonNegative(n: nat, ttl: nat)
    ensures 0 <= n * ttl
  {
  }

  /** Whenever a stored row changes, the new row is at least one time to live younger and keeps the
      first-seen time; rows are never removed. Rows from before the process started are no exception. */
  lemma RowRenewed(s: State, step: Step, ip: Ip)
    requires Inv(s) && Enabled(s, step) && ip in s.cache
    ensures var s' := Apply(s, step);
            ip in s'.cache && (s'.cache[ip] == s.cache[ip] || Renews(s'.cache[ip], Some(s.cache[ip]), s.ttl))
  {
    match step
    case Go(t, content) => assert CallOk(s, t);
    case _ =>
  }
}
