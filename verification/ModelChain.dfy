/** A feature's chain of models, tried in priority order. */
module ModelChain {
  import opened Wrappers
  import opened ModelCalls

  /** Whether an entry can be called: it may be skipped (disabled, circuit open, no credentials,
      saturated), or the caller may abort before it is tried. */
  datatype Gate = Open | Skipped | CallerAborted

  datatype Entry = Entry(modelRef: string, priority: int, gate: Gate, retries: nat, script: Script)

  datatype ChainEnding = ServedBy(index: nat) | ChainAborted | Exhausted

  datatype Walked = Walked(attempts: seq<Summary>, rows: seq<Row>, ending: ChainEnding)

  function After(attempts: seq<Summary>, rows: seq<Row>, rest: Walked): Walked {
    Walked(attempts + rest.attempts, rows + rest.rows, rest.ending)
  }

  const NOT_CALLED: Option<Detail> := None

  datatype Tried = Tried(attempts: seq<Summary>, rows: seq<Row>, next: Continuation)

  datatype Continuation = GoOn | Serve | Stop

  function TryOne(policy: Policy, e: Entry): Tried {
    match e.gate
    case CallerAborted => Tried([], [], Stop)
    case Skipped => Tried([Summary(e.modelRef, false, NOT_CALLED)], [], GoOn)
    case Open =>
      var t := CallTrace(e.script, policy, e.retries);
      Tried(SummaryOf(e.modelRef, t.ending), Rows(e.script, t.calls),
            match t.ending case Served => Serve case AbortedEnd => Stop case Declined(_) => GoOn)
  }

  /** What trying the entries from `i` on does. */
  function Walk(policy: Policy, chain: seq<Entry>, i: nat): Walked
    requires i <= |chain|
    decreases |chain| - i
  {
    if i == |chain| then Walked([], [], Exhausted)
    else
      var t := TryOne(policy, chain[i]);
      match t.next
      case GoOn => After(t.attempts, t.rows, Walk(policy, chain, i + 1))
      case Serve => Walked(t.attempts, t.rows, ServedBy(i))
      case Stop => Walked(t.attempts, t.rows, ChainAborted)
  }

  // ---- Priority order --------------------------------------------------------------------------

  function Insert(x: Entry, chain: seq<Entry>): seq<Entry> {
    if chain == [] then [x]
    else if x.priority <= chain[0].priority then [x] + chain
    else [chain[0]] + Insert(x, chain[1..])
  }

  function ByPriority(chain: seq<Entry>): seq<Entry> {
    if |chain| == 0 then [] else Insert(chain[0], ByPriority(chain[1..]))
  }

  ghost predicate InOrder(chain: seq<Entry>) {
    forall i, j :: 0 <= i < j < |chain| ==> chain[i].priority <= chain[j].priority
  }

  lemma {:induction false} InsertKeepsMembers(x: Entry, chain: seq<Entry>)
    ensures multiset(Insert(x, chain)) == multiset(chain) + multiset{x}
  {
    if |chain| > 0 && x.priority > chain[0].priority {
      InsertKeepsMembers(x, chain[1..]);
      assert chain == [chain[0]] + chain[1..];
      assert Insert(x, chain) == [chain[0]] + Insert(x, chain[1..]);
      assert multiset(Insert(x, chain)) == multiset{chain[0]} + multiset(Insert(x, chain[1..]));
    }
  }

  predicate NoneBefore(p: int, chain: seq<Entry>) { forall k :: 0 <= k < |chain| ==> p <= chain[k].priority }

  lemma {:induction false} InsertNoneBefore(p: int, x: Entry, chain: seq<Entry>)
    requires NoneBefore(p, chain) && p <= x.priority
    ensures NoneBefore(p, Insert(x, chain))
  {
    if |chain| > 0 && x.priority > chain[0].priority { InsertNoneBefore(p, x, chain[1..]); }
  }

  lemma {:induction false} InsertKeepsOrder(x: Entry, chain: seq<Entry>)
    requires InOrder(chain)
    ensures InOrder(Insert(x, chain))
  {
    if |chain| > 0 && x.priority > chain[0].priority {
      InsertKeepsOrder(x, chain[1..]);
      InsertNoneBefore(chain[0].priority, x, chain[1..]);
    }
  }

  lemma InsertLength(x: Entry, chain: seq<Entry>)
    ensures |Insert(x, chain)| == |chain| + 1
  {
  }

  lemma {:induction false} PriorityOrder(chain: seq<Entry>)
    ensures InOrder(ByPriority(chain)) && multiset(ByPriority(chain)) == multiset(chain) && |ByPriority(chain)| == |chain|
  {
    if |chain| > 0 {
      hide InOrder, Insert;
      PriorityOrder(chain[1..]);
      var rest := ByPriority(chain[1..]);
      InsertKeepsOrder(chain[0], rest);
      InsertLength(chain[0], rest);
      InsertKeepsMembers(chain[0], ByPriority(chain[1..]));
      assert chain == [chain[0]] + chain[1..];
    }
  }

  /** The entries of this priority, in the order in which they stand. */
  function At(p: int, chain: seq<Entry>): seq<Entry> {
    if |chain| == 0 then [] else (if chain[0].priority == p then [chain[0]] else []) + At(p, chain[1..])
  }

  lemma {:induction false} InsertKeepsAt(p: int, x: Entry, chain: seq<Entry>)
    ensures At(p, Insert(x, chain)) == (if x.priority == p then [x] else []) + At(p, chain)
  {
    if |chain| > 0 && x.priority > chain[0].priority {
      InsertKeepsAt(p, x, chain[1..]);
      assert ([chain[0]] + Insert(x, chain[1..]))[1..] == Insert(x, chain[1..]);
      assert [] + At(p, chain[1..]) == At(p, chain[1..]);
    } else {
      assert ([x] + chain)[1..] == chain;
    }
  }

  /** Models of equal priority are tried in the order in which they are configured. */
  lemma {:induction false} EqualsKeepTheirOrder(p: int, chain: seq<Entry>)
    ensures At(p, ByPriority(chain)) == At(p, chain)
  {
    if |chain| > 0 {
      EqualsKeepTheirOrder(p, chain[1..]);
      InsertKeepsAt(p, chain[0], ByPriority(chain[1..]));
    }
  }

  // ---- The loop --------------------------------------------------------------------------------

  method TryEntry(router: Router, e: Entry) returns (next: Continuation)
    modifies router
    ensures var t := TryOne(router.policy, e);
            next == t.next && router.attempts == old(router.attempts) + t.attempts && router.rows == old(router.rows) + t.rows
  {
    next := Stop;
    if e.gate.CallerAborted? { return; }
    if e.gate.Skipped? {
      router.attempts := router.attempts + [Summary(e.modelRef, false, NOT_CALLED)];
      return GoOn;
    }
    var called, _ := router.CallModel(e.modelRef, e.script, e.retries);
    next := match called case Served => Serve case AbortedEnd => Stop case Declined(_) => GoOn;
  }

  /** Serves a feature through its chain; the attempts are those of this call. */
  method ThroughChain(router: Router, chain: seq<Entry>) returns (ending: ChainEnding)
    modifies router
    ensures var w := Walk(router.policy, ByPriority(chain), 0);
            ending == w.ending && router.attempts == w.attempts && router.rows == old(router.rows) + w.rows
  {
    hide TryOne;
    var order := ByPriority(chain);
    ghost var w := Walk(router.policy, order, 0);
    ghost var rows: seq<Row> := [];
    router.attempts := [];
    AfterFirst(w);
    var i := 0;
    while i < |order|
      invariant 0 <= i <= |order|
      invariant router.rows == old(router.rows) + rows
      invariant After(router.attempts, rows, Walk(router.policy, order, i)) == w
    {
      ghost var attempts, t := router.attempts, TryOne(router.policy, order[i]);
      var next := TryEntry(router, order[i]);
      MoreRows(old(router.rows), rows, t.rows);
      match next {
        case GoOn => AfterTwice(attempts, rows, t.attempts, t.rows, Walk(router.policy, order, i + 1));
        case Serve => return ServedBy(i);
        case Stop => return ChainAborted;
      }
      rows := rows + t.rows;
      i := i + 1;
    }
    AfterNothing(router.attempts, rows, Exhausted);
    ending := Exhausted;
  }

  lemma MoreRows(a: seq<Row>, b: seq<Row>, c: seq<Row>)
    ensures a + b + c == a + (b + c)
  {
  }

  lemma AfterFirst(w: Walked)
    ensures After([], [], w) == w
  {
    assert [] + w.attempts == w.attempts && [] + w.rows == w.rows;
  }

  lemma AfterTwice(a: seq<Summary>, r: seq<Row>, b: seq<Summary>, s: seq<Row>, rest: Walked)
    ensures After(a, r, After(b, s, rest)) == After(a + b, r + s, rest)
  {
    assert a + (b + rest.attempts) == a + b + rest.attempts;
    assert r + (s + rest.rows) == r + s + rest.rows;
  }

  lemma AfterNothing(a: seq<Summary>, r: seq<Row>, ending: ChainEnding)
    ensures After(a, r, Walked([], [], ending)) == Walked(a, r, ending)
  {
    assert a + [] == a && r + [] == r;
  }

  // ---- What the attempts say -------------------------------------------------------------------

  lemma OneAttempt(policy: Policy, e: Entry)
    ensures var t := TryOne(policy, e);
            && (t.next.Stop? ==> t.attempts == [])
            && (!t.next.Stop? ==> |t.attempts| == 1 && t.attempts[0].modelRef == e.modelRef && t.attempts[0].served == t.next.Serve?)
  {
    hide CallTrace;
  }

  /** One attempt for each entry tried, in order: every entry if none serves, and when a
      model serves, its own last with none before it served. */
  lemma {:induction false} AttemptsFollowChain(policy: Policy, chain: seq<Entry>, i: nat)
    requires i <= |chain|
    ensures var w := Walk(policy, chain, i);
            var tried := match w.ending case ServedBy(n) => n + 1 case _ => i + |w.attempts|;
            && i <= tried <= |chain| && |w.attempts| == tried - i
            && (w.ending.Exhausted? ==> tried == |chain|)
            && (forall k :: 0 <= k < |w.attempts| ==> w.attempts[k].modelRef == chain[i + k].modelRef)
            && (forall k :: 0 <= k < |w.attempts| ==> (w.attempts[k].served <==> w.ending == ServedBy(i + k)))
    decreases |chain| - i
  {
    if i < |chain| {
      OneAttempt(policy, chain[i]);
      AttemptsFollowChain(policy, chain, i + 1);
    }
  }

  /** An exhausted chain has one attempt summary for each of its entries, in priority order. */
  lemma ExhaustedChain(policy: Policy, chain: seq<Entry>)
    requires Walk(policy, ByPriority(chain), 0).ending.Exhausted?
    ensures var order, attempts := ByPriority(chain), Walk(policy, ByPriority(chain), 0).attempts;
            && InOrder(order) && multiset(order) == multiset(chain)
            && |attempts| == |chain|
            && forall k :: 0 <= k < |attempts| ==> attempts[k].modelRef == order[k].modelRef && !attempts[k].served
  {
    PriorityOrder(chain);
    AttemptsFollowChain(policy, ByPriority(chain), 0);
    assert |multiset(ByPriority(chain))| == |multiset(chain)|;
  }
}
