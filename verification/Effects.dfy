// Ledger programs as data: `bind`, the smart constructors and the interpreter
// loop (crates/server/src/effects/mod.rs, crates/server/src/effects/interpreter.rs).

module Effects {
  import opened Prelude

  type Hash = string
  type Rec = string     // a token record
  type Mining = string  // the mining state
  type Audit = string   // a replacement record

  datatype Effect<!A> =
    | Pure(value: A)
    | GetToken(hash: Hash, onToken: Option<Rec> -> Effect<A>)
    | InsertToken(rec: Rec, onInsert: () -> Effect<A>)
    | MarkSpent(hash: Hash, onMark: bool -> Effect<A>)
    | GetMiningState(onMining: Option<Mining> -> Effect<A>)
    | UpdateMiningState(state: Mining, onUpdate: () -> Effect<A>)
    | AtomicReplace(inputs: seq<Hash>, outputs: seq<Rec>, audit: Audit, onReplace: () -> Effect<A>)
    | Fail(error: string)

  /**
   * Every path of the program ends, whatever the store answers. Paths need not
   * share a bound: how long a program runs may depend on what it reads.
   */
  least predicate Ends<A(!new)>(m: Effect<A>) {
    match m
    case Pure(_) => true
    case Fail(_) => true
    case GetToken(_, next) => forall x :: Ends(next(x))
    case InsertToken(_, next) => Ends(next())
    case MarkSpent(_, next) => forall x :: Ends(next(x))
    case GetMiningState(next) => forall x :: Ends(next(x))
    case UpdateMiningState(_, next) => Ends(next())
    case AtomicReplace(_, _, _, next) => Ends(next())
  }

  /** A smaller rank that every continuation of the program has. */
  ghost function Down<A(!new)>(m: Effect<A>, o: ORDINAL): (p: ORDINAL)
    requires Ends#[o](m) && !m.Pure? && !m.Fail?
    ensures p < o
    ensures m.GetToken? ==> forall x :: Ends#[p](m.onToken(x))
    ensures m.InsertToken? ==> Ends#[p](m.onInsert())
    ensures m.MarkSpent? ==> forall x :: Ends#[p](m.onMark(x))
    ensures m.GetMiningState? ==> forall x :: Ends#[p](m.onMining(x))
    ensures m.UpdateMiningState? ==> Ends#[p](m.onUpdate())
    ensures m.AtomicReplace? ==> Ends#[p](m.onReplace())
    decreases o
  {
    if o.Offset > 0 then o - 1
    else
      var q: ORDINAL :| q < o && Ends#[q](m);
      Down(m, q)
  }

  ghost function Rank<A(!new)>(m: Effect<A>): (o: ORDINAL)
    requires Ends(m)
    ensures Ends#[o](m)
  {
    var o: ORDINAL :| Ends#[o](m);
    o
  }

  /** Chains a program into the next one; a failure ends the chain. */
  function Bind<A(!new), B(!new)>(m: Effect<A>, f: A -> Effect<B>): Effect<B>
    requires Ends(m)
  {
    BindAt(m, f, Rank(m))
  }

  function BindAt<A(!new), B(!new)>(m: Effect<A>, f: A -> Effect<B>, ghost o: ORDINAL): Effect<B>
    requires Ends#[o](m)
    decreases o
  {
    match m
    case Pure(a) => f(a)
    case Fail(e) => Fail(e)
    case GetToken(h, next) => ghost var p := Down(m, o); GetToken(h, x => BindAt(next(x), f, p))
    case InsertToken(r, next) => ghost var p := Down(m, o); InsertToken(r, () => BindAt(next(), f, p))
    case MarkSpent(h, next) => ghost var p := Down(m, o); MarkSpent(h, x => BindAt(next(x), f, p))
    case GetMiningState(next) => ghost var p := Down(m, o); GetMiningState(x => BindAt(next(x), f, p))
    case UpdateMiningState(s, next) => ghost var p := Down(m, o); UpdateMiningState(s, () => BindAt(next(), f, p))
    case AtomicReplace(i, u, a, next) => ghost var p := Down(m, o); AtomicReplace(i, u, a, () => BindAt(next(), f, p))
  }

  // ------------------------------------------------------------------
  // The interpreter
  // ------------------------------------------------------------------

  /** Any store: each operation moves its state and answers or fails. */
  datatype Backend<!S> = Backend(
    getToken: (S, Hash) -> (S, Result<Option<Rec>, string>),
    insertToken: (S, Rec) -> (S, Result<(), string>),
    markSpent: (S, Hash) -> (S, Result<bool, string>),
    getMining: S -> (S, Result<Option<Mining>, string>),
    updateMining: (S, Mining) -> (S, Result<(), string>),
    atomicReplace: (S, seq<Hash>, seq<Rec>, Audit) -> (S, Result<(), string>))

  /** The final store and the result; the first failing operation is the last one performed. */
  function Run<S, A(!new)>(b: Backend<S>, m: Effect<A>, s: S): (S, Result<A, string>)
    requires Ends(m)
  {
    RunAt(b, m, s, Rank(m))
  }

  function RunAt<S, A(!new)>(b: Backend<S>, m: Effect<A>, s: S, ghost o: ORDINAL): (S, Result<A, string>)
    requires Ends#[o](m)
    decreases o
  {
    match m
    case Pure(a) => (s, Ok(a))
    case Fail(e) => (s, Err(e))
    case GetToken(h, next) =>
      (match b.getToken(s, h)
       case (t, Ok(x)) => RunAt(b, next(x), t, Down(m, o))
       case (t, Err(e)) => (t, Err(e)))
    case InsertToken(rec, next) =>
      (match b.insertToken(s, rec)
       case (t, Ok(_)) => RunAt(b, next(), t, Down(m, o))
       case (t, Err(e)) => (t, Err(e)))
    case MarkSpent(h, next) =>
      (match b.markSpent(s, h)
       case (t, Ok(x)) => RunAt(b, next(x), t, Down(m, o))
       case (t, Err(e)) => (t, Err(e)))
    case GetMiningState(next) =>
      (match b.getMining(s)
       case (t, Ok(x)) => RunAt(b, next(x), t, Down(m, o))
       case (t, Err(e)) => (t, Err(e)))
    case UpdateMiningState(mining, next) =>
      (match b.updateMining(s, mining)
       case (t, Ok(_)) => RunAt(b, next(), t, Down(m, o))
       case (t, Err(e)) => (t, Err(e)))
    case AtomicReplace(i, u, a, next) =>
      (match b.atomicReplace(s, i, u, a)
       case (t, Ok(_)) => RunAt(b, next(), t, Down(m, o))
       case (t, Err(e)) => (t, Err(e)))
  }

  /** The trampoline: one operation per round, no recursion. */
  method Interpret<S, A(!new)>(b: Backend<S>, program: Effect<A>, start: S) returns (s: S, r: Result<A, string>)
    requires Ends(program)
    ensures (s, r) == Run(b, program, start)
  {
    var effect := program;
    ghost var o := Rank(program);
    s := start;
    while true
      invariant Ends#[o](effect) && RunAt(b, effect, s, o) == Run(b, program, start)
      decreases o
    {
      ghost var p := if effect.Pure? || effect.Fail? then o else Down(effect, o);
      match effect {
        case Pure(a) => return s, Ok(a);
        case Fail(e) => return s, Err(e);
        case GetToken(h, next) =>
          match b.getToken(s, h) {
            case (t, Ok(x)) => s, effect := t, next(x);
            case (t, Err(e)) => return t, Err(e);
          }
        case InsertToken(rec, next) =>
          match b.insertToken(s, rec) {
            case (t, Ok(_)) => s, effect := t, next();
            case (t, Err(e)) => return t, Err(e);
          }
        case MarkSpent(h, next) =>
          match b.markSpent(s, h) {
            case (t, Ok(x)) => s, effect := t, next(x);
            case (t, Err(e)) => return t, Err(e);
          }
        case GetMiningState(next) =>
          match b.getMining(s) {
            case (t, Ok(x)) => s, effect := t, next(x);
            case (t, Err(e)) => return t, Err(e);
          }
        case UpdateMiningState(mining, next) =>
          match b.updateMining(s, mining) {
            case (t, Ok(_)) => s, effect := t, next();
            case (t, Err(e)) => return t, Err(e);
          }
        case AtomicReplace(i, u, a, next) =>
          match b.atomicReplace(s, i, u, a) {
            case (t, Ok(_)) => s, effect := t, next();
            case (t, Err(e)) => return t, Err(e);
          }
      }
      o := p;
    }
  }

  // ------------------------------------------------------------------
  // Bind means: first this, then that
  // ------------------------------------------------------------------

  /** The rank plays no part in what a program does. */
  lemma {:induction false} RankIsIrrelevant<S, A(!new)>(b: Backend<S>, m: Effect<A>, s: S, o: ORDINAL, q: ORDINAL)
    requires Ends#[o](m) && Ends#[q](m)
    ensures RunAt(b, m, s, o) == RunAt(b, m, s, q)
    decreases o
  {
    match m
    case Pure(_) =>
    case Fail(_) =>
    case GetToken(h, next) =>
      match b.getToken(s, h) {
        case (t, Ok(x)) => RankIsIrrelevant(b, next(x), t, Down(m, o), Down(m, q));
        case (t, Err(_)) =>
      }
    case InsertToken(rec, next) =>
      match b.insertToken(s, rec) {
        case (t, Ok(_)) => RankIsIrrelevant(b, next(), t, Down(m, o), Down(m, q));
        case (t, Err(_)) =>
      }
    case MarkSpent(h, next) =>
      match b.markSpent(s, h) {
        case (t, Ok(x)) => RankIsIrrelevant(b, next(x), t, Down(m, o), Down(m, q));
        case (t, Err(_)) =>
      }
    case GetMiningState(next) =>
      match b.getMining(s) {
        case (t, Ok(x)) => RankIsIrrelevant(b, next(x), t, Down(m, o), Down(m, q));
        case (t, Err(_)) =>
      }
    case UpdateMiningState(mining, next) =>
      match b.updateMining(s, mining) {
        case (t, Ok(_)) => RankIsIrrelevant(b, next(), t, Down(m, o), Down(m, q));
        case (t, Err(_)) =>
      }
    case AtomicReplace(i, u, a, next) =>
      match b.atomicReplace(s, i, u, a) {
        case (t, Ok(_)) => RankIsIrrelevant(b, next(), t, Down(m, o), Down(m, q));
        case (t, Err(_)) =>
      }
  }

  /** A program may be run from any rank it has. */
  lemma RunIsRunAt<S, A(!new)>(b: Backend<S>, m: Effect<A>, s: S, o: ORDINAL)
    requires Ends#[o](m)
    ensures Ends(m) && RunAt(b, m, s, o) == Run(b, m, s)
  {
    RankIsIrrelevant(b, m, s, o, Rank(m));
  }

  lemma {:induction false} BindAtEnds<A(!new), B(!new)>(m: Effect<A>, f: A -> Effect<B>, o: ORDINAL)
    requires Ends#[o](m) && forall a :: Ends(f(a))
    ensures Ends(BindAt(m, f, o))
    decreases o
  {
    match m
    case Pure(_) =>
    case Fail(_) =>
    case GetToken(_, next) =>
      forall x ensures Ends(BindAt(next(x), f, Down(m, o))) { BindAtEnds(next(x), f, Down(m, o)); }
    case InsertToken(_, next) => BindAtEnds(next(), f, Down(m, o));
    case MarkSpent(_, next) =>
      forall x ensures Ends(BindAt(next(x), f, Down(m, o))) { BindAtEnds(next(x), f, Down(m, o)); }
    case GetMiningState(next) =>
      forall x ensures Ends(BindAt(next(x), f, Down(m, o))) { BindAtEnds(next(x), f, Down(m, o)); }
    case UpdateMiningState(_, next) => BindAtEnds(next(), f, Down(m, o));
    case AtomicReplace(_, _, _, next) => BindAtEnds(next(), f, Down(m, o));
  }

  /** What running the second program on the outcome of the first gives. */
  function Then<S, A(!new), B(!new)>(b: Backend<S>, first: (S, Result<A, string>), f: A -> Effect<B>):
    (S, Result<B, string>)
    requires forall a :: Ends(f(a))
  {
    match first.1
    case Err(e) => (first.0, Err(e))
    case Ok(a) => Run(b, f(a), first.0)
  }

  lemma {:induction false} BindAtRuns<S, A(!new), B(!new)>(
      b: Backend<S>, m: Effect<A>, f: A -> Effect<B>, s: S, o: ORDINAL, q: ORDINAL)
    requires Ends#[o](m) && forall a :: Ends(f(a))
    requires Ends#[q](BindAt(m, f, o))
    ensures RunAt(b, BindAt(m, f, o), s, q) == Then(b, RunAt(b, m, s, o), f)
    decreases o
  {
    match m
    case Pure(a) => RunIsRunAt(b, f(a), s, q);
    case Fail(_) =>
    case GetToken(h, next) =>
      match b.getToken(s, h) {
        case (t, Ok(x)) =>
          assert BindAt(m, f, o).onToken(x) == BindAt(next(x), f, Down(m, o));
          BindAtRuns(b, next(x), f, t, Down(m, o), Down(BindAt(m, f, o), q));
        case (t, Err(_)) =>
      }
    case InsertToken(rec, next) =>
      match b.insertToken(s, rec) {
        case (t, Ok(_)) => BindAtRuns(b, next(), f, t, Down(m, o), Down(BindAt(m, f, o), q));
        case (t, Err(_)) =>
      }
    case MarkSpent(h, next) =>
      match b.markSpent(s, h) {
        case (t, Ok(x)) =>
          assert BindAt(m, f, o).onMark(x) == BindAt(next(x), f, Down(m, o));
          BindAtRuns(b, next(x), f, t, Down(m, o), Down(BindAt(m, f, o), q));
        case (t, Err(_)) =>
      }
    case GetMiningState(next) =>
      match b.getMining(s) {
        case (t, Ok(x)) =>
          assert BindAt(m, f, o).onMining(x) == BindAt(next(x), f, Down(m, o));
          BindAtRuns(b, next(x), f, t, Down(m, o), Down(BindAt(m, f, o), q));
        case (t, Err(_)) =>
      }
    case UpdateMiningState(mining, next) =>
      match b.updateMining(s, mining) {
        case (t, Ok(_)) => BindAtRuns(b, next(), f, t, Down(m, o), Down(BindAt(m, f, o), q));
        case (t, Err(_)) =>
      }
    case AtomicReplace(i, u, a, next) =>
      match b.atomicReplace(s, i, u, a) {
        case (t, Ok(_)) => BindAtRuns(b, next(), f, t, Down(m, o), Down(BindAt(m, f, o), q));
        case (t, Err(_)) =>
      }
  }

  /** Running `m.bind(f)` is running `m`, then `f` of its result on the store it leaves; failures stop both alike. */
  lemma BindRuns<S, A(!new), B(!new)>(b: Backend<S>, m: Effect<A>, f: A -> Effect<B>, s: S)
    requires Ends(m) && forall a :: Ends(f(a))
    ensures Ends(Bind(m, f)) && Run(b, Bind(m, f), s) == Then(b, Run(b, m, s), f)
  {
    BindAtEnds(m, f, Rank(m));
    BindAtRuns(b, m, f, s, Rank(m), Rank(Bind(m, f)));
  }

  // ------------------------------------------------------------------
  // The monad laws, up to what programs do
  // ------------------------------------------------------------------

  lemma LeftIdentity<A(!new), B(!new)>(a: A, f: A -> Effect<B>)
    ensures Ends(Pure(a)) && Bind(Pure(a), f) == f(a)
  {
    EndsAtOnce(a);
  }

  lemma RightIdentity<S, A(!new)>(b: Backend<S>, m: Effect<A>, s: S)
    requires Ends(m)
    ensures Ends(Bind(m, a => Pure(a))) && Run(b, Bind(m, a => Pure(a)), s) == Run(b, m, s)
  {
    var pure := (a: A) => Pure(a);
    forall a ensures Ends(pure(a)) { EndsAtOnce(a); }
    BindRuns(b, m, (a: A) => Pure(a), s);
  }

  /** Grouping does not matter. */
  lemma Associativity<S, A(!new), B(!new), C(!new)>(
      b: Backend<S>, m: Effect<A>, f: A -> Effect<B>, g: B -> Effect<C>, fg: A -> Effect<C>, s: S)
    requires Ends(m) && (forall a :: Ends(f(a))) && (forall x :: Ends(g(x)))
    requires forall a :: fg(a) == Bind(f(a), g)
    ensures Ends(Bind(m, f)) && Ends(Bind(Bind(m, f), g)) && Ends(Bind(m, fg))
    ensures Run(b, Bind(Bind(m, f), g), s) == Run(b, Bind(m, fg), s)
  {
    forall a ensures Ends(fg(a)) { BindRuns(b, f(a), g, s); }
    BindRuns(b, m, f, s);
    BindRuns(b, Bind(m, f), g, s);
    BindRuns(b, m, fg, s);
    var (t, r) := Run(b, m, s);
    if r.Ok? { BindRuns(b, f(r.value), g, t); }
  }

  // ------------------------------------------------------------------
  // Smart constructors
  // ------------------------------------------------------------------

  function GetTokenOp(h: Hash): Effect<Option<Rec>> { GetToken(h, x => Pure(x)) }
  function InsertTokenOp(r: Rec): Effect<()> { InsertToken(r, () => Pure(())) }
  function MarkSpentOp(h: Hash): Effect<bool> { MarkSpent(h, x => Pure(x)) }
  function GetMiningStateOp(): Effect<Option<Mining>> { GetMiningState(x => Pure(x)) }
  function UpdateMiningStateOp(m: Mining): Effect<()> { UpdateMiningState(m, () => Pure(())) }
  function AtomicReplaceOp(i: seq<Hash>, o: seq<Rec>, a: Audit): Effect<()> { AtomicReplace(i, o, a, () => Pure(())) }

  lemma UnitAnswer<S>(x: (S, Result<(), string>))
    ensures x.1.Ok? ==> x == (x.0, Ok(()))
  {
    match x {
      case (_, Ok(unit)) => assert unit == ();
      case (_, Err(_)) =>
    }
  }

  lemma EndsAtOnce<A(!new)>(a: A)
    ensures Ends(Pure(a))
  {
    assert Ends#[1](Pure(a));
  }

  lemma PureRuns<S, A(!new)>(b: Backend<S>, a: A, s: S, o: ORDINAL)
    requires Ends#[o](Pure(a))
    ensures RunAt(b, Pure(a), s, o) == (s, Ok(a))
  {
  }

  /** Each performs exactly its one store call and hands back the answer. */
  lemma QueriesCallOnce<S>(b: Backend<S>, s: S, h: Hash)
    ensures Ends(GetTokenOp(h)) && Run(b, GetTokenOp(h), s) == b.getToken(s, h)
    ensures Ends(MarkSpentOp(h)) && Run(b, MarkSpentOp(h), s) == b.markSpent(s, h)
    ensures Ends(GetMiningStateOp()) && Run(b, GetMiningStateOp(), s) == b.getMining(s)
  {
    forall x: Option<Rec> ensures Ends(GetTokenOp(h).onToken(x)) { EndsAtOnce(x); }
    forall x: bool ensures Ends(MarkSpentOp(h).onMark(x)) { EndsAtOnce(x); }
    forall x: Option<Mining> ensures Ends(GetMiningStateOp().onMining(x)) { EndsAtOnce(x); }
    match b.getToken(s, h) {
      case (t, Ok(x)) =>
        assert GetTokenOp(h).onToken(x) == Pure(x);
        PureRuns(b, x, t, Down(GetTokenOp(h), Rank(GetTokenOp(h))));
      case (_, Err(_)) =>
    }
    match b.markSpent(s, h) {
      case (t, Ok(x)) =>
        assert MarkSpentOp(h).onMark(x) == Pure(x);
        PureRuns(b, x, t, Down(MarkSpentOp(h), Rank(MarkSpentOp(h))));
      case (_, Err(_)) =>
    }
    match b.getMining(s) {
      case (t, Ok(x)) =>
        assert GetMiningStateOp().onMining(x) == Pure(x);
        PureRuns(b, x, t, Down(GetMiningStateOp(), Rank(GetMiningStateOp())));
      case (_, Err(_)) =>
    }
  }

  lemma WritesCallOnce<S>(b: Backend<S>, s: S, r: Rec, m: Mining, i: seq<Hash>, u: seq<Rec>, a: Audit)
    ensures Ends(InsertTokenOp(r)) && Run(b, InsertTokenOp(r), s) == b.insertToken(s, r)
    ensures Ends(UpdateMiningStateOp(m)) && Run(b, UpdateMiningStateOp(m), s) == b.updateMining(s, m)
    ensures Ends(AtomicReplaceOp(i, u, a)) && Run(b, AtomicReplaceOp(i, u, a), s) == b.atomicReplace(s, i, u, a)
  {
    EndsAtOnce(());
    UnitAnswer(b.insertToken(s, r));
    UnitAnswer(b.updateMining(s, m));
    UnitAnswer(b.atomicReplace(s, i, u, a));
    match b.insertToken(s, r) {
      case (t, Ok(_)) => PureRuns(b, (), t, Down(InsertTokenOp(r), Rank(InsertTokenOp(r))));
      case (_, Err(_)) =>
    }
    match b.updateMining(s, m) {
      case (t, Ok(_)) => PureRuns(b, (), t, Down(UpdateMiningStateOp(m), Rank(UpdateMiningStateOp(m))));
      case (_, Err(_)) =>
    }
    match b.atomicReplace(s, i, u, a) {
      case (t, Ok(_)) => PureRuns(b, (), t, Down(AtomicReplaceOp(i, u, a), Rank(AtomicReplaceOp(i, u, a))));
      case (_, Err(_)) =>
    }
  }
}
