/** Once-only initialisation of the `is_pmem` function pointer, by any number of threads. */
module Once {

  /** The function pointer in the table. */
  datatype IsPmem = Null | Detect | Never | Always

  /** `getenv("PMEM_IS_PMEM_FORCE")` through `atoi`, if the variable is set. */
  datatype Env = Unset | Force(val: int)

  datatype Pc =
    | Start                     // pmem_is_pmem: about to read `once`
    | Head | TryCas             // pmem_is_pmem_init: loop test, compare-and-swap 0 -> 1
    | ReadEnv | CheckNull       // the body
    | CasOut                    // compare-and-swap 1 -> 2
    | AddOnce | Call
    | Returned(f: IsPmem)
    | Fatal                     // the second compare-and-swap failed
    | NullCall                  // called through a null pointer

  datatype State = State(init: nat, once: nat, isPmem: IsPmem, threads: map<nat, Pc>, bodies: nat, added: set<nat>)

  /** The table entry before any call is whatever load-time initialisation left. */
  ghost predicate Init(preset: IsPmem, s: State) {
    s.init == 0 && s.once == 0 && s.isPmem == preset && s.threads == map[] && s.bodies == 0 && s.added == {}
  }

  const COUNTER_WRAP := 0x1_0000_0000

  function Forced(env: Env, f: IsPmem): (g: IsPmem) {
    if env == Force(0) then Never else if env == Force(1) then Always else f
  }

  /** The pointer every caller must end up using. */
  function Final(env: Env, preset: IsPmem): (f: IsPmem)
    ensures f != Null
  {
    var f := Forced(env, preset);
    if f == Null then Never else f
  }

  /** What the environment variable and the table entry ask for: 0 is never, 1 always, else what was there. */
  ghost predicate Rightly(env: Env, preset: IsPmem, f: IsPmem) {
    && (env.Force? && env.val == 0 ==> f == Never)
    && (env.Force? && env.val == 1 ==> f == Always)
    && (env.Unset? || (env.val != 0 && env.val != 1) ==> f == if preset.Null? then Never else preset)
  }

  lemma FinalIsRight(env: Env, preset: IsPmem)
    ensures Rightly(env, preset, Final(env, preset))
  {}

  function Go(s: State, t: nat, pc: Pc): (r: State) { s.(threads := s.threads[t := pc]) }

  /** One atomic action of thread `t`. */
  function Next(env: Env, s: State, t: nat): (r: State)
    requires t in s.threads
  {
    match s.threads[t]
    case Start => Go(s, t, if s.once == 0 then Head else Call)
    case Head => Go(s, t, if s.init != 2 then TryCas else AddOnce)
    case TryCas => if s.init == 0 then Go(s.(init := 1, bodies := s.bodies + 1), t, ReadEnv) else Go(s, t, Head)
    case ReadEnv => Go(s.(isPmem := Forced(env, s.isPmem)), t, CheckNull)
    case CheckNull => Go(s.(isPmem := if s.isPmem == Null then Never else s.isPmem), t, CasOut)
    case CasOut => if s.init == 1 then Go(s.(init := 2), t, Head) else Go(s, t, Fatal)
    case AddOnce => Go(s.(once := (s.once + 1) % COUNTER_WRAP, added := s.added + {t}), t, Call)
    case Call => Go(s, t, if s.isPmem == Null then NullCall else Returned(s.isPmem))
    case Returned(_) => s
    case Fatal => s
    case NullCall => s
  }

  /** A thread takes a step, or a new call to pmem_is_pmem begins. */
  ghost predicate Step(env: Env, s: State, s': State) {
    || (exists t :: t in s.threads && s' == Next(env, s, t))
    || (exists t :: t !in s.threads && s' == Go(s, t, Start))
  }

  ghost predicate IsRun(env: Env, preset: IsPmem, run: seq<State>) {
    && |run| >= 1
    && Init(preset, run[0])
    && (forall i :: 0 <= i < |run| - 1 ==> Step(env, run[i], run[i + 1]))
  }

  predicate InBody(pc: Pc) { pc.ReadEnv? || pc.CheckNull? || pc.CasOut? }

  ghost predicate ThreadInv(env: Env, preset: IsPmem, s: State, pc: Pc) {
    match pc
    case ReadEnv => s.isPmem == preset
    case CheckNull => s.isPmem == Forced(env, preset)
    case CasOut => s.isPmem == Final(env, preset)
    case AddOnce => s.init == 2
    case Call => s.init == 2
    case Returned(f) => s.init == 2 && f == Final(env, preset)
    case Fatal => false
    case NullCall => false
    case _ => true
  }

  ghost predicate Inv(env: Env, preset: IsPmem, s: State) {
    && s.init <= 2
    && s.bodies == (if s.init == 0 then 0 else 1)
    && (s.init == 0 ==> s.isPmem == preset)
    && (s.init == 2 ==> s.isPmem == Final(env, preset))
    && (s.once != 0 ==> s.init == 2)
    && (s.init == 1 <==> exists t :: t in s.threads && InBody(s.threads[t]))
    && (forall t, u :: t in s.threads && u in s.threads && InBody(s.threads[t]) && InBody(s.threads[u]) ==> t == u)
    && (forall t :: t in s.threads ==> ThreadInv(env, preset, s, s.threads[t]))
  }

  lemma ThreadsKeep(env: Env, preset: IsPmem, s: State, t: nat, u: nat)
    requires Inv(env, preset, s) && t in s.threads && u in s.threads
    ensures ThreadInv(env, preset, Next(env, s, t), Next(env, s, t).threads[u])
  {
    assert ThreadInv(env, preset, s, s.threads[t]) && ThreadInv(env, preset, s, s.threads[u]);
    if InBody(s.threads[t]) && InBody(s.threads[u]) { assert t == u; }
  }

  lemma NextKeeps(env: Env, preset: IsPmem, s: State, t: nat)
    requires Inv(env, preset, s) && t in s.threads
    ensures Inv(env, preset, Next(env, s, t))
  {
    var s' := Next(env, s, t);
    assert ThreadInv(env, preset, s, s.threads[t]);
    if InBody(s'.threads[t]) { assert t in s'.threads && InBody(s'.threads[t]); }
    if u :| u in s.threads && InBody(s.threads[u]) {
      if u != t { assert u in s'.threads && InBody(s'.threads[u]); }
    }
    forall u | u in s'.threads ensures ThreadInv(env, preset, s', s'.threads[u]) {
      ThreadsKeep(env, preset, s, t, u);
    }
  }

  lemma StartKeeps(env: Env, preset: IsPmem, s: State, t: nat)
    requires Inv(env, preset, s) && t !in s.threads
    ensures Inv(env, preset, Go(s, t, Start))
  {
    var s' := Go(s, t, Start);
    if u :| u in s.threads && InBody(s.threads[u]) { assert u in s'.threads && InBody(s'.threads[u]); }
    forall u | u in s'.threads ensures ThreadInv(env, preset, s', s'.threads[u]) {
      if u != t { assert ThreadInv(env, preset, s, s.threads[u]); }
    }
  }

  lemma {:induction false} RunKeeps(env: Env, preset: IsPmem, run: seq<State>, i: nat)
    requires IsRun(env, preset, run) && i < |run|
    ensures Inv(env, preset, run[i])
  {
    hide Inv, Next;
    if i == 0 {
      InitHolds(env, preset, run[0]);
    } else {
      RunKeeps(env, preset, run, i - 1);
      var s, s' := run[i - 1], run[i - 1 + 1];
      assert Step(env, s, s');
      if t :| t in s.threads && s' == Next(env, s, t) {
        NextKeeps(env, preset, s, t);
      } else {
        var t :| t !in s.threads && s' == Go(s, t, Start);
        StartKeeps(env, preset, s, t);
      }
    }
  }

  lemma InitHolds(env: Env, preset: IsPmem, s: State)
    requires Init(preset, s)
    ensures Inv(env, preset, s)
  {}

  /** The thread is past the test of `once`, and past the addition if it had to make one. */
  predicate IsThrough(pc: Pc) { pc.Call? || pc.Returned? || pc.NullCall? }

  /** `once` counts, in 32 bits, the calls that have added to it; none gets through before the first has. */
  ghost predicate Counts(s: State) {
    && s.added <= s.threads.Keys
    && s.once == |s.added| % 0x1_0000_0000
    && (forall t :: t in s.added ==> IsThrough(s.threads[t]))
    && ((exists t :: t in s.threads && IsThrough(s.threads[t])) ==> s.added != {})
  }

  lemma AddCounts(s: State, s': State, t: nat)
    requires t in s.threads && s.threads[t].AddOnce? && Counts(s)
    requires s'.once == (s.once + 1) % 0x1_0000_0000 && s'.added == s.added + {t}
    requires s'.threads == s.threads[t := Call]
    ensures Counts(s')
  {
    assert t !in s.added && |s'.added| == |s.added| + 1;
    assert s'.added <= s'.threads.Keys;
  }

  lemma MoveCounts(s: State, s': State, t: nat, pc: Pc)
    requires Counts(s) && s'.once == s.once && s'.added == s.added && s'.threads == s.threads[t := pc]
    requires t in s.added ==> IsThrough(pc)
    requires IsThrough(pc) ==> s.once != 0 || (t in s.threads && IsThrough(s.threads[t]))
    ensures Counts(s')
  {
    assert s'.added <= s'.threads.Keys;
    if u :| u in s'.threads && IsThrough(s'.threads[u]) {
      if u != t { assert u in s.threads && IsThrough(s.threads[u]); }
    }
  }

  lemma NextCounts(env: Env, s: State, t: nat)
    requires t in s.threads && Counts(s)
    ensures Counts(Next(env, s, t))
  {
    var s' := Next(env, s, t);
    if s.threads[t].AddOnce? {
      AddCounts(s, s', t);
    } else {
      assert t in s.added ==> IsThrough(s.threads[t]);
      hide Counts, Forced;
      assert s'.threads == s.threads[t := s'.threads[t]];
      MoveCounts(s, s', t, s'.threads[t]);
    }
  }

  lemma NewcomerCounts(s: State, t: nat)
    requires t !in s.threads && Counts(s)
    ensures Counts(Go(s, t, Start))
  {
    MoveCounts(s, Go(s, t, Start), t, Start);
  }

  lemma {:induction false} OnceCounts(env: Env, preset: IsPmem, run: seq<State>, i: nat)
    requires IsRun(env, preset, run) && i < |run|
    ensures Counts(run[i])
  {
    if i > 0 {
      hide Next, Counts;
      OnceCounts(env, preset, run, i - 1);
      var s, s' := run[i - 1], run[i - 1 + 1];
      assert Step(env, s, s');
      if t :| t in s.threads && s' == Next(env, s, t) {
        NextCounts(env, s, t);
      } else {
        var t :| t !in s.threads && s' == Go(s, t, Start);
        NewcomerCounts(s, t);
      }
    }
  }

  /**
   * In every state of every interleaving: the body has run at most once and at most one thread is in
   * it; no compare-and-swap fails fatally and nobody calls through null; whoever has returned, or sees
   * `once != 0`, finds initialisation complete, and all of them used the same function.
   */
  lemma InitialisedOnce(env: Env, preset: IsPmem, run: seq<State>)
    requires IsRun(env, preset, run)
    ensures var s := run[|run| - 1];
      && s.bodies <= 1
      && (forall t, u :: t in s.threads && u in s.threads && InBody(s.threads[t]) && InBody(s.threads[u]) ==> t == u)
      && (forall t :: t in s.threads ==> !s.threads[t].Fatal? && !s.threads[t].NullCall?)
      && (s.once != 0 ==> s.init == 2 && s.isPmem != Null)
      && (forall t :: t in s.threads && s.threads[t].Returned? ==>
            s.init == 2 && s.bodies == 1 && s.isPmem == s.threads[t].f && Rightly(env, preset, s.threads[t].f))
      && Counts(s)
  {
    var s := run[|run| - 1];
    RunKeeps(env, preset, run, |run| - 1);
    FinalIsRight(env, preset);
    OnceCounts(env, preset, run, |run| - 1);
    forall t | t in s.threads
      ensures !s.threads[t].Fatal? && !s.threads[t].NullCall?
      ensures s.threads[t].Returned? ==> s.init == 2 && s.threads[t].f == Final(env, preset)
    {
      assert ThreadInv(env, preset, s, s.threads[t]);
    }
  }

  // ----- nobody is locked out

  function BodyLeft(pc: Pc): (n: nat) { if pc.ReadEnv? then 3 else if pc.CheckNull? then 2 else 1 }

  /** Steps left until initialisation is complete. */
  ghost function Left(s: State): (n: nat) {
    if s.init == 0 then 4
    else if s.init == 2 then 0
    else if t :| t in s.threads && InBody(s.threads[t]) then BodyLeft(s.threads[t]) else 0
  }

  lemma LeftIs(env: Env, preset: IsPmem, s: State, t: nat)
    requires Inv(env, preset, s) && t in s.threads && InBody(s.threads[t])
    ensures s.init == 1 && Left(s) == BodyLeft(s.threads[t])
  {}

  function Far(s: State, pc: Pc): (n: nat) {
    match pc
    case Start => 7
    case Head => if s.init == 2 then 5 else 6
    case TryCas => if s.init == 2 then 6 else 5
    case AddOnce => 4
    case Call => 3
    case _ => 2
  }

  /** Which thread to schedule so that `t` gets on: the one inside the body while `t` spins. */
  ghost function Helper(s: State, t: nat): (u: nat)
    requires t in s.threads
    ensures u in s.threads
  {
    if s.init == 1 then (if v :| v in s.threads && InBody(s.threads[v]) then v else t) else t
  }

  lemma HelperAdvances(env: Env, preset: IsPmem, s: State, t: nat)
    requires Inv(env, preset, s) && t in s.threads && !s.threads[t].Returned?
    ensures var s' := Next(env, s, Helper(s, t));
      && Inv(env, preset, s')
      && (Left(s') < Left(s) || (Left(s') == Left(s) && Far(s', s'.threads[t]) < Far(s, s.threads[t])))
  {
    var u := Helper(s, t);
    var s' := Next(env, s, u);
    NextKeeps(env, preset, s, u);
    if s.init == 1 {
      assert InBody(s.threads[u]);
      LeftIs(env, preset, s, u);
      if InBody(s'.threads[u]) { LeftIs(env, preset, s', u); }
      assert ThreadInv(env, preset, s', s'.threads[u]);
    } else {
      assert ThreadInv(env, preset, s, s.threads[t]) && ThreadInv(env, preset, s', s'.threads[t]);
      if InBody(s'.threads[t]) { LeftIs(env, preset, s', t); }
    }
  }

  /** From every reachable state every caller can still return: the spin loop locks nobody out. */
  lemma {:induction false} CanReturn(env: Env, preset: IsPmem, s: State, t: nat) returns (run: seq<State>)
    requires Inv(env, preset, s) && t in s.threads
    ensures |run| >= 1 && run[0] == s
    ensures forall i :: 0 <= i < |run| - 1 ==> Step(env, run[i], run[i + 1])
    ensures t in run[|run| - 1].threads && run[|run| - 1].threads[t].Returned?
    ensures Rightly(env, preset, run[|run| - 1].threads[t].f)
    decreases Left(s), Far(s, s.threads[t])
  {
    if s.threads[t].Returned? {
      assert ThreadInv(env, preset, s, s.threads[t]);
      FinalIsRight(env, preset);
      run := [s];
    } else {
      hide Inv, Left, Far, Next, Helper;
      HelperAdvances(env, preset, s, t);
      var u := Helper(s, t);
      var s' := Next(env, s, u);
      NextKeepsThreads(env, s, u);
      assert Step(env, s, s');
      var rest := CanReturn(env, preset, s', t);
      run := [s] + rest;
      forall i | 0 <= i < |run| - 1 ensures Step(env, run[i], run[i + 1]) {
        if i > 0 { assert Step(env, rest[i - 1], rest[i - 1 + 1]); }
      }
    }
  }

  lemma NextKeepsThreads(env: Env, s: State, t: nat)
    requires t in s.threads
    ensures Next(env, s, t).threads.Keys == s.threads.Keys
  {}
}
