/** What a lookup returns: a row that was fresh when the lookup found it, or one the providers were asked
    for on its behalf. */
module Lookups {
  import opened Common
  import opened SingleFlight

  /** A row is stored for the address and is younger than the time to live. */
  predicate HasFreshRow(s: State, ip: Ip) {
    ip in s.cache && s.now - s.cache[ip].refreshedAt < s.ttl
  }

  // ----- One step -----

  /** A check of the cache ends the lookup, or its critical section, exactly when it finds a fresh row;
      otherwise the lookup goes on, to the key's reference or to the providers. */
  lemma CheckDecides(s: State, t: Handle, content: nat)
    requires CanGo(s, t) && (s.calls[t].pc.ReadCache? || s.calls[t].pc.Recheck?)
    ensures var s' := Apply(s, Go(t, content)); var ip := s.calls[t].ip;
            && s' == s.(calls := s'.calls)
            && (s.calls[t].pc.ReadCache? ==> (t !in s'.calls <==> HasFreshRow(s, ip)))
            && (s.calls[t].pc.ReadCache? && t in s'.calls ==> s'.calls[t] == Call(ip, TakeReference))
            && (s.calls[t].pc.Recheck? ==> t in s'.calls && s'.calls[t].ip == ip && s'.calls[t].pc.key == s.calls[t].pc.key)
            && (s.calls[t].pc.Recheck? ==> (s'.calls[t].pc.ReturnToken? <==> HasFreshRow(s, ip)))
            && (s.calls[t].pc.Recheck? ==> (s'.calls[t].pc.WaitSlot? <==> !HasFreshRow(s, ip)))
  {
  }

  /** The step that stores a row: the row says what was renewed, at the time of the fan-out, and keeps the
      first-seen time of the row before it. */
  lemma StoresRenewed(s: State, t: Handle, content: nat)
    requires Inv(s) && CanGo(s, t) && s.calls[t].pc.Save?
    ensures var s' := Apply(s, Go(t, content)); var ip := s.calls[t].ip;
            && t in s'.calls && s'.calls[t].pc.ReleaseSlot?
            && ip in s'.cache && s'.cache[ip] == s.calls[t].pc.renewed
            && forall other | other != ip :: (other in s'.cache <==> other in s.cache)
                                             && (other in s.cache ==> s'.cache[other] == s.cache[other])
  {
    assert CallOk(s, t);
  }

  // ----- Whole lookups -----

  /** Step j finds a fresh row for the lookup. */
  ghost predicate FoundFresh(states: seq<State>, steps: seq<Step>, j: nat, t: Handle, ip: Ip)
    requires |states| == |steps| + 1
  {
    j < |steps| && steps[j].Go? && steps[j].t == t && HasFreshRow(states[j], ip)
  }

  /** Step m asks the providers on behalf of the lookup, and the row says what they answered, and when. */
  ghost predicate Asked(states: seq<State>, steps: seq<Step>, m: nat, t: Handle, row: Reputation)
    requires |states| == |steps| + 1
  {
    && m < |steps| && steps[m].Go? && steps[m].t == t && t in states[m].calls && states[m].calls[t].pc.FanOut?
    && row.content == steps[m].content && row.refreshedAt == states[m].now
  }

  /** Step j stores the row that step m got from the providers. */
  ghost predicate Stored(states: seq<State>, steps: seq<Step>, m: nat, j: nat, t: Handle, ip: Ip)
    requires |states| == |steps| + 1
  {
    && m < j < |steps| && steps[j].Go? && steps[j].t == t
    && ip in states[j + 1].cache && Asked(states, steps, m, t, states[j + 1].cache[ip])
  }

  /** Since step b the lookup has found or stored a row. */
  ghost predicate HasAnswer(states: seq<State>, steps: seq<Step>, b: nat, i: nat, t: Handle, ip: Ip)
    requires |states| == |steps| + 1
  {
    || (exists j | b < j < i :: FoundFresh(states, steps, j, t, ip))
    || (exists m, j | b < m < j < i :: Stored(states, steps, m, j, t, ip))
  }

  predicate Asking(pc: Pc) { !pc.ReleaseSlot? && !pc.ReturnToken? && !pc.DropReference? }

  /** The lookup is still under way without an answer. */
  ghost predicate Unanswered(states: seq<State>, steps: seq<Step>, b: nat, i: nat, t: Handle, ip: Ip)
    requires |states| == |steps| + 1
  {
    && i < |states| && t in states[i].calls && states[i].calls[t].ip == ip && Asking(states[i].calls[t].pc)
    && (states[i].calls[t].pc.Save? ==> exists m | b < m < i :: Asked(states, steps, m, t, states[i].calls[t].pc.renewed))
  }

  /** The lookup begins with step b and no step of it fails. */
  ghost predicate IsLookup(states: seq<State>, steps: seq<Step>, b: nat, i: nat, t: Handle, ip: Ip)
    requires |states| == |steps| + 1
  {
    && b < i < |states| && steps[b] == Begin(ip) && t == states[b].next
    && forall j | b < j < i :: steps[j] != Fails(t)
  }

  lemma OthersLeave(s: State, step: Step, t: Handle)
    requires Inv(s) && Enabled(s, step) && t in s.calls && step != Fails(t) && !(step.Go? && step.t == t)
    ensures t in Apply(s, step).calls && Apply(s, step).calls[t] == s.calls[t]
  {
    assert CallOk(s, t);
    match step
    case Begin(_) =>
    case Pass(_) =>
    case Go(u, content) => GoLeaves(s, u, content, t);
    case Fails(_) =>
  }

  lemma GoLeaves(s: State, u: Handle, content: nat, t: Handle)
    requires CanGo(s, u) && t in s.calls && u != t
    ensures t in Advance(s, u, content).calls && Advance(s, u, content).calls[t] == s.calls[t]
  {
    var s' := Advance(s, u, content);
    if u in s'.calls {
      MovesOnly(s, u, content);
    } else {
      LeavesOnly(s, u, content);
    }
  }

  lemma MovesOnly(s: State, u: Handle, content: nat)
    requires CanGo(s, u) && u in Advance(s, u, content).calls
    ensures Advance(s, u, content).calls == s.calls[u := Advance(s, u, content).calls[u]]
  {
    match s.calls[u].pc
    case TakeReference => if s.calls[u].ip in s.keys && s.keys[s.calls[u].ip] in s.heap {} else {}
    case Recheck(_) => if Fresh(s, CachedRow(s, s.calls[u].ip)) {} else {}
    case _ =>
  }

  lemma LeavesOnly(s: State, u: Handle, content: nat)
    requires CanGo(s, u) && u !in Advance(s, u, content).calls
    ensures Advance(s, u, content).calls == s.calls - {u}
  {
    match s.calls[u].pc
    case ReadCache =>
    case DropReference(k) =>
    case _ => MovesSomewhere(s, u, content);
  }

  lemma MovesSomewhere(s: State, u: Handle, content: nat)
    requires CanGo(s, u) && !s.calls[u].pc.ReadCache? && !s.calls[u].pc.DropReference?
    ensures u in Advance(s, u, content).calls
  {
  }

  lemma OwnStep(states: seq<State>, steps: seq<Step>, b: nat, i: nat, t: Handle, ip: Ip)
    requires IsRun(states, steps) && b < i < |steps| && Unanswered(states, steps, b, i, t, ip) && StepAt(states, steps, i)
    requires Inv(states[i]) && steps[i].Go? && steps[i].t == t
    ensures HasAnswer(states, steps, b, i + 1, t, ip) || Unanswered(states, steps, b, i + 1, t, ip)
  {
    var s, content := states[i], steps[i].content;
    match s.calls[t].pc
    case ReadCache =>
      CheckDecides(s, t, content);
      assert HasFreshRow(s, ip) ==> FoundFresh(states, steps, i, t, ip);
    case Recheck(_) =>
      CheckDecides(s, t, content);
      assert HasFreshRow(s, ip) ==> FoundFresh(states, steps, i, t, ip);
    case FanOut(_, _) =>
      assert Asked(states, steps, i, t, states[i + 1].calls[t].pc.renewed);
    case Save(_, _, renewed) =>
      StoresRenewed(s, t, content);
      var m :| b < m < i && Asked(states, steps, m, t, renewed);
      assert Stored(states, steps, m, i, t, ip);
    case TakeReference =>
    case WaitToken(_) =>
    case WaitSlot(_, _) =>
  }

  lemma AnswerStays(states: seq<State>, steps: seq<Step>, b: nat, i: nat, t: Handle, ip: Ip)
    requires |states| == |steps| + 1 && HasAnswer(states, steps, b, i, t, ip)
    ensures HasAnswer(states, steps, b, i + 1, t, ip)
  {
    if j :| b < j < i && FoundFresh(states, steps, j, t, ip) {
      assert b < j < i + 1;
    } else {
      var m, j :| b < m < j < i && Stored(states, steps, m, j, t, ip);
      assert b < m < j < i + 1;
    }
  }

  lemma {:induction false} AnsweredOrUnderWay(states: seq<State>, steps: seq<Step>, b: nat, i: nat, t: Handle, ip: Ip)
    requires IsRun(states, steps) && IsLookup(states, steps, b, i, t, ip)
    ensures HasAnswer(states, steps, b, i, t, ip) || Unanswered(states, steps, b, i, t, ip)
  {
    assert StepAt(states, steps, i - 1);
    if i > b + 1 {
      AnsweredOrUnderWay(states, steps, b, i - 1, t, ip);
      if HasAnswer(states, steps, b, i - 1, t, ip) {
        AnswerStays(states, steps, b, i - 1, t, ip);
      } else {
        RunKeepsInv(states, steps, i - 1);
        if steps[i - 1].Go? && steps[i - 1].t == t {
          OwnStep(states, steps, b, i - 1, t, ip);
        } else {
          OtherStep(states, steps, b, i - 1, t, ip);
        }
      }
    }
  }

  lemma OtherStep(states: seq<State>, steps: seq<Step>, b: nat, i: nat, t: Handle, ip: Ip)
    requires IsRun(states, steps) && b < i < |steps| && Unanswered(states, steps, b, i, t, ip) && StepAt(states, steps, i)
    requires Inv(states[i]) && steps[i] != Fails(t) && !(steps[i].Go? && steps[i].t == t)
    ensures Unanswered(states, steps, b, i + 1, t, ip)
  {
    OthersLeave(states[i], steps[i], t);
    if states[i].calls[t].pc.Save? {
      var m :| b < m < i && Asked(states, steps, m, t, states[i].calls[t].pc.renewed);
      assert b < m < i + 1;
    }
  }

  /** In every run a lookup none of whose steps failed has returned only after it found a row younger than
      the time to live, or stored one with what the providers answered it, refreshed since it began. */
  lemma ReturnsFreshRow(states: seq<State>, steps: seq<Step>, b: nat, i: nat, t: Handle, ip: Ip)
    requires IsRun(states, steps) && IsLookup(states, steps, b, i, t, ip) && t !in states[i].calls
    ensures || (exists j | b < j < i :: FoundFresh(states, steps, j, t, ip))
            || (exists m, j | b < m < j < i :: Stored(states, steps, m, j, t, ip)
                                                && states[b].now <= states[j + 1].cache[ip].refreshedAt)
  {
    AnsweredOrUnderWay(states, steps, b, i, t, ip);
    if !exists j | b < j < i :: FoundFresh(states, steps, j, t, ip) {
      var m, j :| b < m < j < i && Stored(states, steps, m, j, t, ip);
      TimePasses(states, steps, b, m);
    }
  }

  lemma {:induction false} TimePasses(states: seq<State>, steps: seq<Step>, i: nat, j: nat)
    requires IsRun(states, steps) && i <= j < |states|
    ensures states[i].now <= states[j].now
  {
    if i < j {
      TimePasses(states, steps, i, j - 1);
      assert StepAt(states, steps, j - 1);
    }
  }
}
