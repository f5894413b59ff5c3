/** Renaming a run under READ COMMITTED: the run rename rewrites the names of its children in one
    transaction, while people rename single sessions and delete sessions and runs concurrently. Each
    statement sees what is committed when it runs; a row written by an open transaction is locked. */
module RenameCascade {
  import opened Common
  import opened VariantNames

  type Handle = nat

  /** The stored variant_params, if they decode. */
  type Params = Option<map<string, string>>

  datatype Child = Child(run: Id, params: Params, name: string, customized: bool)

  datatype Phase = WaitRun | ReadChildren | Rewrite(todo: seq<(Id, Params)>)

  /** A RenameRun transaction: its uncommitted writes are the run's new name, once it holds the run's
      lock, and the names in pending. */
  datatype Transaction = Transaction(run: Id, name: string, phase: Phase, pending: map<Id, string>)

  /** used and given are history: the ids ever used, and the last name a person gave a session. */
  datatype State = State(
    runs: map<Id, string>,
    children: map<Id, Child>,
    transactions: map<Handle, Transaction>,
    used: set<Id>,
    given: map<Id, string>)

  datatype Step =
    | CreateRun(run: Id, name: string, variants: map<Id, Params>)
    | Begin(t: Handle, run: Id, name: string)
    | LockRun(t: Handle)
    | ReadChildrenOf(t: Handle, order: seq<Id>)
    | RewriteNext(t: Handle)
    | Commit(t: Handle)
    | Rollback(t: Handle)
    | RenameSession(id: Id, name: string)
    | DeleteSession(id: Id)
    | DeleteRun(run: Id)

  predicate HoldsRun(tx: Transaction, run: Id) { tx.run == run && !tx.phase.WaitRun? }

  predicate RunLocked(s: State, run: Id) {
    exists t | t in s.transactions :: HoldsRun(s.transactions[t], run)
  }

  predicate ChildLocked(s: State, id: Id) {
    exists t | t in s.transactions :: id in s.transactions[t].pending
  }

  /** The name a child with these params is created or rewritten with. */
  ghost function NameFor(runName: string, params: Params): string {
    VariantName(runName, if params.Some? then params.value else map[])
  }

  ghost function Created(run: Id, name: string, variants: map<Id, Params>): map<Id, Child> {
    map id | id in variants :: Child(run, variants[id], NameFor(name, variants[id]), false)
  }

  /** RunSessionVariantParams: the committed children, in any order. */
  ghost predicate Lists(s: State, run: Id, order: seq<Id>) {
    forall id :: id in order <==> id in s.children && s.children[id].run == run
  }

  function Listing(s: State, order: seq<Id>): seq<(Id, Params)>
    requires forall id | id in order :: id in s.children
  {
    seq(|order|, i requires 0 <= i < |order| => (order[i], s.children[order[i]].params))
  }

  /** Undecodable params are skipped; otherwise the UPDATE applies if, when it gets the row, the row is
      still there and not customized. */
  ghost function Rewritten(s: State, tx: Transaction): Transaction
    requires tx.phase.Rewrite? && tx.phase.todo != []
  {
    var (id, params) := tx.phase.todo[0];
    var rest := tx.(phase := Rewrite(tx.phase.todo[1..]));
    if params.Some? && id in s.children && !s.children[id].customized
    then rest.(pending := tx.pending[id := VariantName(tx.name, params.value)])
    else rest
  }

  /** The children with the pending names written. */
  function Renamed(children: map<Id, Child>, pending: map<Id, string>): map<Id, Child> {
    map id | id in children :: if id in pending then children[id].(name := pending[id]) else children[id]
  }

  ghost predicate Enabled(s: State, step: Step) {
    match step
    case CreateRun(run, _, variants) => run !in s.used && run !in variants && variants.Keys !! s.used
    case Begin(t, _, _) => t !in s.transactions
    case LockRun(t) => t in s.transactions && s.transactions[t].phase == WaitRun && !RunLocked(s, s.transactions[t].run)
    case ReadChildrenOf(t, order) =>
      t in s.transactions && s.transactions[t].phase == ReadChildren && Lists(s, s.transactions[t].run, order)
    case RewriteNext(t) =>
      t in s.transactions && s.transactions[t].phase.Rewrite? && s.transactions[t].phase.todo != []
      && forall u | u in s.transactions && u != t :: s.transactions[t].phase.todo[0].0 !in s.transactions[u].pending
    case Commit(t) => t in s.transactions && s.transactions[t].phase == Rewrite([])
    case Rollback(t) => t in s.transactions
    case RenameSession(id, _) => !ChildLocked(s, id)
    case DeleteSession(id) => !ChildLocked(s, id)
    case DeleteRun(run) => !RunLocked(s, run) && forall id | ChildOf(s, id, run) :: !ChildLocked(s, id)
  }

  predicate ChildOf(s: State, id: Id, run: Id) { id in s.children && s.children[id].run == run }

  ghost function Apply(s: State, step: Step): State
    requires Enabled(s, step)
  {
    match step
    case CreateRun(run, name, variants) =>
      s.(runs := s.runs[run := name], children := s.children + Created(run, name, variants),
         used := s.used + {run} + variants.Keys)
    case Begin(t, run, name) => s.(transactions := s.transactions[t := Transaction(run, name, WaitRun, map[])])
    case LockRun(t) =>
      if s.transactions[t].run in s.runs
      then s.(transactions := s.transactions[t := s.transactions[t].(phase := ReadChildren)])
      else s.(transactions := s.transactions - {t})
    case ReadChildrenOf(t, order) =>
      s.(transactions := s.transactions[t := s.transactions[t].(phase := Rewrite(Listing(s, order)))])
    case RewriteNext(t) => s.(transactions := s.transactions[t := Rewritten(s, s.transactions[t])])
    case Commit(t) =>
      var tx := s.transactions[t];
      s.(runs := s.runs[tx.run := tx.name], children := Renamed(s.children, tx.pending), transactions := s.transactions - {t})
    case Rollback(t) => s.(transactions := s.transactions - {t})
    case RenameSession(id, name) =>
      if id in s.children
      then s.(children := s.children[id := s.children[id].(name := name, customized := true)], given := s.given[id := name])
      else s
    case DeleteSession(id) => s.(children := s.children - {id})
    case DeleteRun(run) =>
      s.(runs := s.runs - {run}, children := map id | id in s.children && s.children[id].run != run :: s.children[id])
  }

  predicate Init(s: State) {
    s.runs == map[] && s.children == map[] && s.transactions == map[] && s.used == {} && s.given == map[]
  }

  // ----- Invariant -----

  /** Committed names: generated ones follow the run, customized ones are what a person last gave. */
  ghost predicate ChildOk(s: State, id: Id)
    requires id in s.children
  {
    var c := s.children[id];
    && id in s.used && c.run in s.runs && c.run in s.used
    && (!c.customized && c.params.Some? ==> c.name == VariantName(s.runs[c.run], c.params.value))
    && (c.customized ==> id in s.given && c.name == s.given[id])
  }

  /** Still to be visited, with the params the child has. */
  predicate Queued(todo: seq<(Id, Params)>, id: Id, params: Params) { (id, params) in todo }

  /** An open rename that has read the children will have rewritten every child that still follows the
      run: each is pending with its new name, or still to be visited. */
  ghost predicate Covers(s: State, tx: Transaction) {
    tx.phase.Rewrite? ==> forall id | ChildOf(s, id, tx.run) && !s.children[id].customized && s.children[id].params.Some? ::
      Queued(tx.phase.todo, id, s.children[id].params)
      || (id in tx.pending && tx.pending[id] == VariantName(tx.name, s.children[id].params.value))
  }

  ghost predicate TransactionOk(s: State, t: Handle)
    requires t in s.transactions
  {
    var tx := s.transactions[t];
    && (!tx.phase.WaitRun? ==> tx.run in s.runs)
    && (!tx.phase.Rewrite? ==> tx.pending == map[])
    && (forall id | id in tx.pending :: ChildOf(s, id, tx.run) && !s.children[id].customized)
    && (tx.phase.Rewrite? ==> forall i | 0 <= i < |tx.phase.todo| && tx.phase.todo[i].0 in s.children ::
          s.children[tx.phase.todo[i].0].run == tx.run && s.children[tx.phase.todo[i].0].params == tx.phase.todo[i].1)
    && (tx.phase.Rewrite? ==> forall i | 0 <= i < |tx.phase.todo| :: tx.phase.todo[i].0 in s.used)
    && Covers(s, tx)
  }

  ghost predicate Inv(s: State) {
    && s.runs.Keys <= s.used
    && (forall id {:trigger ChildOk(s, id)} | id in s.children :: ChildOk(s, id))
    && (forall t {:trigger TransactionOk(s, t)} | t in s.transactions :: TransactionOk(s, t))
    && (forall t, u | t in s.transactions && u in s.transactions && !s.transactions[t].phase.WaitRun?
                      && !s.transactions[u].phase.WaitRun? && s.transactions[t].run == s.transactions[u].run :: t == u)
  }

  // ----- Transactions -----

  lemma BeginKeeps(s: State, t: Handle, run: Id, name: string)
    requires Inv(s) && t !in s.transactions
    ensures Inv(Apply(s, Begin(t, run, name)))
  {
    TransactionsMove(s, Apply(s, Begin(t, run, name)), t);
  }

  /** Committed rows stay; one transaction moves or ends. */
  lemma TransactionsMove(s: State, s': State, t: Handle)
    requires Inv(s) && s' == s.(transactions := s'.transactions)
    requires forall u | u in s'.transactions && u != t :: u in s.transactions && s'.transactions[u] == s.transactions[u]
    requires t in s'.transactions ==> TransactionOk(s', t)
    requires t in s'.transactions && !s'.transactions[t].phase.WaitRun? ==>
               forall u | u in s'.transactions && u != t && !s'.transactions[u].phase.WaitRun? ::
                 s'.transactions[u].run != s'.transactions[t].run
    ensures Inv(s')
  {
    forall id | id in s'.children ensures ChildOk(s', id) {
      assert ChildOk(s, id);
    }
    forall u | u in s'.transactions ensures TransactionOk(s', u) {
      if u != t {
        assert TransactionOk(s, u);
      }
    }
  }

  lemma LockRunKeeps(s: State, t: Handle)
    requires Inv(s) && Enabled(s, LockRun(t))
    ensures Inv(Apply(s, LockRun(t)))
  {
    var s' := Apply(s, LockRun(t));
    assert TransactionOk(s, t);
    forall u | u in s.transactions && u != t && !s.transactions[u].phase.WaitRun?
      ensures s.transactions[u].run != s.transactions[t].run
    {
      assert !HoldsRun(s.transactions[u], s.transactions[t].run);
    }
    TransactionsMove(s, s', t);
  }

  lemma ReadKeeps(s: State, t: Handle, order: seq<Id>)
    requires Inv(s) && Enabled(s, ReadChildrenOf(t, order))
    ensures Inv(Apply(s, ReadChildrenOf(t, order)))
  {
    var s' := Apply(s, ReadChildrenOf(t, order));
    assert TransactionOk(s, t);
    var todo := Listing(s, order);
    forall i | 0 <= i < |todo| ensures todo[i].0 in s.used {
      assert order[i] in order;
      assert ChildOk(s, order[i]);
    }
    forall id | ChildOf(s, id, s.transactions[t].run) ensures Queued(todo, id, s.children[id].params) {
      assert id in order;
      var i :| 0 <= i < |order| && order[i] == id;
      assert todo[i] == (id, s.children[id].params);
    }
    forall i | 0 <= i < |todo| ensures ChildOf(s, todo[i].0, s.transactions[t].run) {
      assert order[i] in order;
    }
    TransactionsMove(s, s', t);
  }

  lemma RewriteKeeps(s: State, t: Handle)
    requires Inv(s) && Enabled(s, RewriteNext(t))
    ensures Inv(Apply(s, RewriteNext(t)))
  {
    var s' := Apply(s, RewriteNext(t));
    assert TransactionOk(s, t);
    var todo := s.transactions[t].phase.todo;
    assert todo == [todo[0]] + todo[1..];
    assert ChildOf(s, todo[0].0, s.transactions[t].run) || todo[0].0 !in s.children;
    RewrittenCovers(s, s.transactions[t]);
    TransactionsMove(s, s', t);
  }

  lemma RewrittenCovers(s: State, tx: Transaction)
    requires tx.phase.Rewrite? && tx.phase.todo != [] && Covers(s, tx)
    requires var head := tx.phase.todo[0]; head.0 in s.children ==> s.children[head.0].params == head.1
    ensures Covers(s, Rewritten(s, tx))
  {
    var todo := tx.phase.todo;
    forall id | ChildOf(s, id, tx.run) && !s.children[id].customized && s.children[id].params.Some?
      ensures Queued(todo[1..], id, s.children[id].params)
              || (id in Rewritten(s, tx).pending
                  && Rewritten(s, tx).pending[id] == VariantName(tx.name, s.children[id].params.value))
    {
      if Queued(todo, id, s.children[id].params) && todo[0] != (id, s.children[id].params) {
        assert todo == [todo[0]] + todo[1..];
      }
    }
  }

  lemma RollbackKeeps(s: State, t: Handle)
    requires Inv(s) && t in s.transactions
    ensures Inv(s.(transactions := s.transactions - {t}))
  {
    TransactionsMove(s, s.(transactions := s.transactions - {t}), t);
  }

  // ----- Committed rows change -----

  /** Another transaction does not notice changes of rows it has not written and that are not of its
      run, or that only remove children from its duty. */
  predicate Tolerates(s: State, s': State, tx: Transaction) {
    && (tx.run in s.runs && !tx.phase.WaitRun? ==> tx.run in s'.runs)
    && s.used <= s'.used
    && (forall id | id in tx.pending && id in s.children :: id in s'.children && s'.children[id] == s.children[id])
    && (forall id | id in s'.children && id in s.used && !tx.phase.WaitRun? ::
          id in s.children && s'.children[id].run == s.children[id].run && s'.children[id].params == s.children[id].params
          && (s.children[id].customized ==> s'.children[id].customized))
    && (forall id | id in s'.children && id !in s.used && !tx.phase.WaitRun? :: s'.children[id].run != tx.run)
  }

  lemma ToleratedOk(s: State, s': State, t: Handle)
    requires t in s.transactions && TransactionOk(s, t) && t in s'.transactions && s'.transactions[t] == s.transactions[t]
    requires Tolerates(s, s', s.transactions[t])
    ensures TransactionOk(s', t)
  {
    var tx := s.transactions[t];
    if tx.phase.Rewrite? {
      forall id | ChildOf(s', id, tx.run) && !s'.children[id].customized && s'.children[id].params.Some?
        ensures ChildOf(s, id, tx.run) && !s.children[id].customized && s.children[id].params == s'.children[id].params
      {
      }
    }
  }

  lemma CommitChildOk(s: State, s': State, t: Handle, id: Id)
    requires t in s.transactions && TransactionOk(s, t) && Enabled(s, Commit(t)) && s' == Apply(s, Commit(t))
    requires id in s.children && ChildOk(s, id)
    ensures id in s'.children && ChildOk(s', id)
  {
    var tx := s.transactions[t];
    if s.children[id].run == tx.run && !s.children[id].customized && s.children[id].params.Some? {
      assert ChildOf(s, id, tx.run);
      assert !Queued([], id, s.children[id].params);
    }
  }

  lemma CommitKeeps(s: State, t: Handle)
    requires Inv(s) && Enabled(s, Commit(t))
    ensures Inv(Apply(s, Commit(t)))
  {
    var s' := Apply(s, Commit(t));
    assert TransactionOk(s, t);
    forall id | id in s'.children ensures ChildOk(s', id) {
      assert ChildOk(s, id);
      CommitChildOk(s, s', t, id);
    }
    forall u | u in s'.transactions ensures TransactionOk(s', u) {
      assert TransactionOk(s, u);
      OtherRunsPending(s, t, u);
      ToleratedOk(s, s', u);
    }
  }

  /** Two open renames never have the same child pending. */
  lemma OtherRunsPending(s: State, t: Handle, u: Handle)
    requires Inv(s) && t in s.transactions && u in s.transactions && t != u && !s.transactions[t].phase.WaitRun?
    ensures s.transactions[t].pending.Keys !! s.transactions[u].pending.Keys
  {
    assert TransactionOk(s, t) && TransactionOk(s, u);
    forall id | id in s.transactions[t].pending ensures id !in s.transactions[u].pending {
      assert ChildOf(s, id, s.transactions[t].run);
    }
  }

  lemma CreateKeeps(s: State, run: Id, name: string, variants: map<Id, Params>)
    requires Inv(s) && Enabled(s, CreateRun(run, name, variants))
    ensures Inv(Apply(s, CreateRun(run, name, variants)))
  {
    var s' := Apply(s, CreateRun(run, name, variants));
    forall id | id in s'.children ensures ChildOk(s', id) {
      if id !in variants {
        assert ChildOk(s, id);
      }
    }
    UsedChildren(s);
    forall t | t in s'.transactions ensures TransactionOk(s', t) {
      assert TransactionOk(s, t);
      assert s.transactions[t].phase.WaitRun? || s.transactions[t].run in s.used;
      ToleratedOk(s, s', t);
    }
  }

  lemma RenameSessionKeeps(s: State, id: Id, name: string)
    requires Inv(s) && Enabled(s, RenameSession(id, name))
    ensures Inv(Apply(s, RenameSession(id, name)))
  {
    var s' := Apply(s, RenameSession(id, name));
    forall x | x in s'.children ensures ChildOk(s', x) {
      assert ChildOk(s, x);
    }
    forall t | t in s'.transactions ensures TransactionOk(s', t) {
      assert TransactionOk(s, t);
      UsedChildren(s);
      ToleratedOk(s, s', t);
    }
  }

  lemma UsedChildren(s: State)
    requires Inv(s)
    ensures s.children.Keys <= s.used
  {
    forall id | id in s.children ensures id in s.used {
      assert ChildOk(s, id);
    }
  }

  lemma DeleteSessionKeeps(s: State, id: Id)
    requires Inv(s) && Enabled(s, DeleteSession(id))
    ensures Inv(Apply(s, DeleteSession(id)))
  {
    var s' := Apply(s, DeleteSession(id));
    UsedChildren(s);
    forall x | x in s'.children ensures ChildOk(s', x) {
      assert ChildOk(s, x);
    }
    forall t | t in s'.transactions ensures TransactionOk(s', t) {
      assert TransactionOk(s, t);
      ToleratedOk(s, s', t);
    }
  }

  lemma DeleteRunKeeps(s: State, run: Id)
    requires Inv(s) && Enabled(s, DeleteRun(run))
    ensures Inv(Apply(s, DeleteRun(run)))
  {
    var s' := Apply(s, DeleteRun(run));
    UsedChildren(s);
    forall x | x in s'.children ensures ChildOk(s', x) {
      assert ChildOk(s, x);
    }
    forall t | t in s'.transactions ensures TransactionOk(s', t) {
      assert TransactionOk(s, t);
      assert !HoldsRun(s.transactions[t], run);
      ToleratedOk(s, s', t);
    }
  }

  lemma StepKeepsInv(s: State, step: Step)
    requires Inv(s) && Enabled(s, step)
    ensures Inv(Apply(s, step))
  {
    match step
    case CreateRun(run, name, variants) => CreateKeeps(s, run, name, variants);
    case Begin(t, run, name) => BeginKeeps(s, t, run, name);
    case LockRun(t) => LockRunKeeps(s, t);
    case ReadChildrenOf(t, order) => ReadKeeps(s, t, order);
    case RewriteNext(t) => RewriteKeeps(s, t);
    case Commit(t) => CommitKeeps(s, t);
    case Rollback(t) => RollbackKeeps(s, t);
    case RenameSession(id, name) => RenameSessionKeeps(s, id, name);
    case DeleteSession(id) => DeleteSessionKeeps(s, id);
    case DeleteRun(run) => DeleteRunKeeps(s, run);
  }

  // ----- Results -----

  ghost predicate StepAt(states: seq<State>, steps: seq<Step>, i: nat)
    requires i + 1 < |states| && i < |steps|
  {
    Enabled(states[i], steps[i]) && states[i + 1] == Apply(states[i], steps[i])
  }

  ghost predicate IsRun(states: seq<State>, steps: seq<Step>) {
    && |states| == |steps| + 1 && Init(states[0])
    && forall i {:trigger StepAt(states, steps, i)} | 0 <= i < |steps| :: StepAt(states, steps, i)
  }

  lemma {:induction false} RunKeepsInv(states: seq<State>, steps: seq<Step>, i: nat)
    requires IsRun(states, steps) && i < |states|
    ensures Inv(states[i])
  {
    if i > 0 {
      RunKeepsInv(states, steps, i - 1);
      assert StepAt(states, steps, i - 1);
      StepKeepsInv(states[i - 1], steps[i - 1]);
    }
  }

  /** In every committed state of every interleaving: a child nobody renamed carries the name its run
      generates for it, and a renamed child carries the last name a person gave it. */
  lemma NamesFollowRun(states: seq<State>, steps: seq<Step>, i: nat, id: Id)
    requires IsRun(states, steps) && i < |states| && id in states[i].children
    ensures var s := states[i]; var c := s.children[id];
            && c.run in s.runs
            && (!c.customized && c.params.Some? ==> c.name == VariantName(s.runs[c.run], c.params.value))
            && (c.customized ==> id in s.given && c.name == s.given[id])
  {
    RunKeepsInv(states, steps, i);
    assert ChildOk(states[i], id);
  }

  /** A person's rename is final until the next one: the flag never reverts while the session exists,
      and only a session rename changes the name of a customized child. */
  lemma CustomizedStays(s: State, step: Step, id: Id)
    requires Inv(s) && Enabled(s, step) && id in s.children && s.children[id].customized && id in Apply(s, step).children
    ensures Apply(s, step).children[id].customized
    ensures !step.RenameSession? ==> Apply(s, step).children[id] == s.children[id]
  {
    match step
    case CreateRun(_, _, variants) => assert ChildOk(s, id);
    case Commit(t) => assert TransactionOk(s, t);
    case _ =>
  }

  // ----- What a rename writes -----

  /** The open transaction t of state i was begun by step j, with this run and this name. */
  ghost predicate Requested(states: seq<State>, steps: seq<Step>, j: nat, i: nat, t: Handle)
    requires |states| == |steps| + 1
  {
    && j < i < |states| && steps[j].Begin? && steps[j].t == t
    && (forall m | j < m <= i :: t in states[m].transactions)
    && states[i].transactions[t].run == steps[j].run && states[i].transactions[t].name == steps[j].name
  }

  lemma StillRequested(s: State, step: Step, t: Handle)
    requires Enabled(s, step) && t in s.transactions && t in Apply(s, step).transactions
    ensures Apply(s, step).transactions[t].run == s.transactions[t].run
    ensures Apply(s, step).transactions[t].name == s.transactions[t].name
  {
  }

  lemma BegunAs(s: State, step: Step, t: Handle)
    requires Enabled(s, step) && t !in s.transactions && t in Apply(s, step).transactions
    ensures step.Begin? && step.t == t
    ensures Apply(s, step).transactions[t].run == step.run && Apply(s, step).transactions[t].name == step.name
  {
  }

  lemma {:induction false} WhoAsked(states: seq<State>, steps: seq<Step>, i: nat, t: Handle) returns (j: nat)
    requires IsRun(states, steps) && i < |states| && t in states[i].transactions
    ensures Requested(states, steps, j, i, t)
  {
    assert i > 0;
    assert StepAt(states, steps, i - 1);
    if t in states[i - 1].transactions {
      j := WhoAsked(states, steps, i - 1, t);
      StillRequested(states[i - 1], steps[i - 1], t);
    } else {
      j := i - 1;
      BegunAs(states[i - 1], steps[i - 1], t);
    }
  }

  /** A committed rename has the run carry exactly the requested name, and with it every child that follows
      the run: if the run was called differently before, so was each of them. */
  lemma CommitRenames(states: seq<State>, steps: seq<Step>, i: nat, t: Handle) returns (j: nat)
    requires IsRun(states, steps) && i < |steps| && steps[i] == Commit(t) && StepAt(states, steps, i)
    ensures Requested(states, steps, j, i, t)
    ensures var run, name, s, s' := steps[j].run, steps[j].name, states[i], states[i + 1];
            && run in s.runs && run in s'.runs && s'.runs[run] == name
            && forall id | ChildOf(s', id, run) && !s'.children[id].customized && s'.children[id].params.Some? ::
                 && ChildOf(s, id, run) && s'.children[id].name == VariantName(name, s'.children[id].params.value)
                 && (s'.children[id].name == s.children[id].name <==> name == s.runs[run])
  {
    j := WhoAsked(states, steps, i, t);
    var run, name, s, s' := steps[j].run, steps[j].name, states[i], states[i + 1];
    RunKeepsInv(states, steps, i);
    assert TransactionOk(s, t);
    forall id | ChildOf(s', id, run) && !s'.children[id].customized && s'.children[id].params.Some?
      ensures && ChildOf(s, id, run) && s'.children[id].name == VariantName(name, s'.children[id].params.value)
              && (s'.children[id].name == s.children[id].name <==> name == s.runs[run])
    {
      NamesFollowRun(states, steps, i, id);
      NamesFollowRun(states, steps, i + 1, id);
      NamesDiffer(name, s.runs[run], s.children[id].params.value);
    }
  }

  /** Nothing but the commit of one of its renames changes a run's name, and a new run has the name and
      the children it was asked for. */
  lemma RunNamed(s: State, step: Step, run: Id)
    requires Inv(s) && Enabled(s, step) && run in Apply(s, step).runs
    ensures run in s.runs && Apply(s, step).runs[run] != s.runs[run] ==> step.Commit? && s.transactions[step.t].run == run
    ensures run !in s.runs ==> step.CreateRun? && step.run == run && Apply(s, step).runs[run] == step.name
    ensures run !in s.runs ==>
              forall id :: ChildOf(Apply(s, step), id, run) <==> id in step.variants
    ensures run !in s.runs ==>
              forall id | id in step.variants :: Apply(s, step).children[id].params == step.variants[id]
                                                 && (step.variants[id].None? ==> Apply(s, step).children[id].name == step.name)
  {
    if step.Commit? {
      assert TransactionOk(s, step.t);
    } else if step.CreateRun? && run == step.run {
      var s' := Apply(s, step);
      forall id ensures ChildOf(s', id, run) <==> id in step.variants {
        if id !in step.variants && id in s'.children {
          assert ChildOk(s, id);
        }
      }
    }
  }

  /** A person's rename sets the name to what the person asked for and marks the session; no other child
      changes. */
  lemma SessionRenamed(s: State, id: Id, name: string, other: Id)
    requires Enabled(s, RenameSession(id, name)) && other in s.children
    ensures var s' := Apply(s, RenameSession(id, name));
            && other in s'.children && s'.children[other].run == s.children[other].run
            && (other == id ==> s'.children[other].name == name && s'.children[other].customized)
            && (other != id ==> s'.children[other] == s.children[other])
  {
  }

  /** A child disappears only when it or its run is deleted, and then it does; its name changes only when a
      person renames it, or when its run's rename commits while it follows the run. */
  lemma ChildChanges(s: State, step: Step, id: Id)
    requires Inv(s) && Enabled(s, step) && id in s.children
    ensures var s' := Apply(s, step);
            id !in s'.children <==> (step == DeleteSession(id) || (step.DeleteRun? && step.run == s.children[id].run))
    ensures var s' := Apply(s, step);
            id in s'.children && s'.children[id].name != s.children[id].name ==>
              || (step.RenameSession? && step.id == id)
              || (step.Commit? && s.transactions[step.t].run == s.children[id].run && !s.children[id].customized)
  {
    assert ChildOk(s, id);
    if step.Commit? {
      assert TransactionOk(s, step.t);
    }
  }
}
