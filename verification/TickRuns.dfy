/** Ticks of the service as runs, so that what holds in every run holds for its ticks. */
module TickRuns {
  import opened Transactions
  import opened Settlement
  import opened Deposits
  import opened Withdrawals
  import opened Passes
  import opened Lifecycle
  import opened Scheduler
  import opened TickTheorems
  import opened Runs
  import opened Drain

  lemma {:induction false} RunSnoc(rows: seq<Tx>, steps: seq<Runs.Step>, s: Runs.Step, p: Pair, terms: Terms)
    ensures RunRows(rows, steps + [s]) == StepRows(RunRows(rows, steps), s)
    ensures ValidRun(rows, steps, p, terms) && ValidStep(RunRows(rows, steps), s, p, terms) ==>
              ValidRun(rows, steps + [s], p, terms)
    ensures OwnPasses(steps + [s], p) == OwnPasses(steps, p) + if IsOwn(s, p) then 1 else 0
    decreases |steps|
  {
    if steps == [] {
      assert steps + [s] == [s] && [s][1..] == [];
      assert RunRows(StepRows(rows, s), []) == StepRows(rows, s);
      assert ValidRun(StepRows(rows, s), [], p, terms) && OwnPasses([], p) == 0;
    } else {
      assert (steps + [s])[1..] == steps[1..] + [s];
      RunSnoc(StepRows(rows, steps[0]), steps[1..], s, p, terms);
    }
  }

  /** Passes in a row, as steps. */
  function AsSteps(passes: seq<Pass>): (steps: seq<Runs.Step>)
    ensures |steps| == |passes| && forall k :: 0 <= k < |steps| ==> steps[k] == TickPass(passes[k])
  {
    seq(|passes|, k requires 0 <= k < |passes| => TickPass(passes[k]))
  }

  lemma {:induction false} PassesAreRun(rows: seq<Tx>, passes: seq<Pass>, p: Pair, terms: Terms)
    requires forall k :: 0 <= k < |passes| && passes[k].pair == p ==> passes[k].terms == terms
    ensures ValidRun(rows, AsSteps(passes), p, terms)
    ensures RunRows(rows, AsSteps(passes)) == ApplyAll(rows, passes)
  {
    if passes != [] {
      var rest, last := passes[..|passes| - 1], passes[|passes| - 1];
      PassesAreRun(rows, rest, p, terms);
      RunSnoc(rows, AsSteps(rest), TickPass(last), p, terms);
      AsStepsSnoc(passes);
    }
  }

  lemma AsStepsSnoc(passes: seq<Pass>)
    requires passes != []
    ensures AsSteps(passes) == AsSteps(passes[..|passes| - 1]) + [TickPass(passes[|passes| - 1])]
  {
  }

  lemma {:induction false} OwnPassesOf(passes: seq<Pass>, p: Pair, k: nat)
    requires k < |passes| && passes[k].pair == p
    ensures OwnPasses(AsSteps(passes), p) >= 1
    decreases |passes|
  {
    assert AsSteps(passes)[1..] == AsSteps(passes[1..]);
    if k > 0 {
      OwnPassesOf(passes[1..], p, k - 1);
    }
  }

  /** A pass that serves the pair's wallet gets the answers about the pair's deposits. */
  lemma ServingDoesNotFail(c: Config, jobs: seq<Job>, answers: Pair -> PassAnswers, passes: seq<Pass>, p: Pair)
    requires ServeAll(passes, jobs, c, answers)
    requires AllSucceed(answers(p).deposit)
    ensures NothingFails(AsSteps(passes), p)
  {
    forall k | 0 <= k < |passes| && passes[k].pair == p ensures AllSucceed(passes[k].outcomes.deposit) {
      assert Serves(passes[k], jobs[k], c, answers);
    }
  }

  /** A tick of the service, withdrawals, balance checks and all other merchants included, is a valid run for every
      pair it serves under the same terms; it holds a pass of that pair, and nothing fails in it that does not fail in
      the answers about the pair's deposits. */
  lemma TickIsRun(c: Config, jobs: seq<Job>, w: Books, answers: Pair -> PassAnswers, job: Job)
    returns (steps: seq<Runs.Step>)
    requires UniqueGuids(w.rows) && job in jobs
    requires forall k :: 0 <= k < |jobs| && jobs[k].merchant == job.merchant ==> jobs[k].TermsOf(c) == job.TermsOf(c)
    ensures var p := job.PairOf(c);
            && ValidRun(w.rows, steps, p, job.TermsOf(c)) && OwnPasses(steps, p) >= 1
            && RunRows(w.rows, steps) == Fold(jobs, w, JobStep(c, answers)).rows
            && (AllSucceed(answers(p).deposit) ==> NothingFails(steps, p))
  {
    var p := job.PairOf(c);
    var passes := TickIsPasses(c, jobs, w, answers);
    steps := AsSteps(passes);
    PassesAreRun(w.rows, passes, p, job.TermsOf(c));
    var k :| 0 <= k < |jobs| && jobs[k] == job;
    OwnPassesOf(passes, p, k);
    if AllSucceed(answers(p).deposit) {
      ServingDoesNotFail(c, jobs, answers, passes, p);
    }
  }

  // The drain bound, counted in ticks.

  /** One tick of the service over the merchants' records, and what happens between it and the next one: new rows and
      API calls, but no pass. */
  datatype Tick = Tick(config: Config, merchants: seq<MerchantRecord>, answers: Pair -> PassAnswers,
                       between: seq<Runs.Step>)
  {
    function Jobs(): seq<Job> {
      Scheduler.Jobs(config, merchants)
    }

    /** The table that `ProcessTransaction` leaves. */
    function RowsAfter(w: Books): seq<Tx> {
      Fold(Jobs(), w, JobStep(config, answers)).rows
    }

    /** From books to books; balances may change in any way before the next tick. */
    ghost predicate Leads(w: Books, w': Books, p: Pair, terms: Terms) {
      && (forall k :: 0 <= k < |between| ==> !between[k].TickPass?)
      && ValidRun(RowsAfter(w), between, p, terms) && w'.rows == RunRows(RowsAfter(w), between)
    }

    /** The merchant has a wallet on the blockchain, and the tick's transfers of the pair's deposits succeed. */
    ghost predicate Favours(p: Pair, terms: Terms) {
      && config.blockchain == p.blockchain && AllSucceed(answers(p).deposit)
      && (exists job :: job in Jobs() && job.merchant == p.merchant)
      && (forall job :: job in Jobs() && job.merchant == p.merchant ==> job.TermsOf(config) == terms)
    }
  }

  lemma {:induction false} RunConcat(rows: seq<Tx>, steps: seq<Runs.Step>, more: seq<Runs.Step>, p: Pair, terms: Terms)
    ensures RunRows(rows, steps + more) == RunRows(RunRows(rows, steps), more)
    ensures ValidRun(rows, steps, p, terms) && ValidRun(RunRows(rows, steps), more, p, terms) ==>
              ValidRun(rows, steps + more, p, terms)
    decreases |steps|
  {
    if steps == [] {
      assert steps + more == more;
    } else {
      assert (steps + more)[1..] == steps[1..] + more;
      RunConcat(StepRows(rows, steps[0]), steps[1..], more, p, terms);
    }
  }

  lemma {:induction false} OwnPassesConcat(steps: seq<Runs.Step>, more: seq<Runs.Step>, p: Pair)
    ensures OwnPasses(steps + more, p) == OwnPasses(steps, p) + OwnPasses(more, p)
  {
    if steps == [] {
      assert steps + more == more;
    } else {
      assert (steps + more)[1..] == steps[1..] + more;
      OwnPassesConcat(steps[1..], more, p);
    }
  }

  /** A run of the pair that ends in these rows, with at least `n` passes of its own, none of which fails. */
  ghost predicate GoodRun(rows: seq<Tx>, steps: seq<Runs.Step>, rows': seq<Tx>, p: Pair, terms: Terms, n: nat) {
    && ValidRun(rows, steps, p, terms) && RunRows(rows, steps) == rows'
    && OwnPasses(steps, p) >= n && NothingFails(steps, p)
  }

  lemma GoodRunConcat(rows: seq<Tx>, steps: seq<Runs.Step>, middle: seq<Tx>, more: seq<Runs.Step>, rows': seq<Tx>,
                      p: Pair, terms: Terms, n: nat, m: nat)
    requires GoodRun(rows, steps, middle, p, terms, n) && GoodRun(middle, more, rows', p, terms, m)
    ensures GoodRun(rows, steps + more, rows', p, terms, n + m)
  {
    RunConcat(rows, steps, more, p, terms);
    OwnPassesConcat(steps, more, p);
  }

  lemma TickIsGoodRun(w: Books, tick: Tick, w': Books, p: Pair, terms: Terms) returns (steps: seq<Runs.Step>)
    requires UniqueGuids(w.rows) && tick.Leads(w, w', p, terms) && tick.Favours(p, terms)
    ensures GoodRun(w.rows, steps, w'.rows, p, terms, 1)
  {
    var job :| job in tick.Jobs() && job.merchant == p.merchant;
    var passes := TickIsRun(tick.config, tick.Jobs(), w, tick.answers, job);
    GoodRunConcat(w.rows, passes, tick.RowsAfter(w), tick.between, w'.rows, p, terms, 1, 0);
    steps := passes + tick.between;
  }

  lemma {:induction false} RunKeepsGuids(rows: seq<Tx>, steps: seq<Runs.Step>, p: Pair, terms: Terms)
    requires UniqueGuids(rows) && ValidRun(rows, steps, p, terms)
    ensures UniqueGuids(RunRows(rows, steps))
    decreases |steps|
  {
    if steps != [] {
      match steps[0] {
        case TickPass(pass) => PassNeverGoesBack(rows, pass);
        case NewRow(t) => NewRowKeepsGuids(rows, t);
        case WithdrawApi(key, e) => ApiCallKeepsMine(rows, key, e, p);
      }
      RunKeepsGuids(StepRows(rows, steps[0]), steps[1..], p, terms);
    }
  }

  /** Books after each tick, in all of which the pair is favoured. */
  ghost predicate TickRun(books: seq<Books>, ticks: seq<Tick>, p: Pair, terms: Terms) {
    && |books| == |ticks| + 1
    && forall k :: 0 <= k < |ticks| ==> ticks[k].Leads(books[k], books[k + 1], p, terms) && ticks[k].Favours(p, terms)
  }

  lemma OneMoreTick(rows: seq<Tx>, steps: seq<Runs.Step>, w: Books, tick: Tick, w': Books, p: Pair, terms: Terms,
                    n: nat)
    returns (more: seq<Runs.Step>)
    requires UniqueGuids(rows) && GoodRun(rows, steps, w.rows, p, terms, n)
    requires tick.Leads(w, w', p, terms) && tick.Favours(p, terms)
    ensures GoodRun(rows, more, w'.rows, p, terms, n + 1)
  {
    RunKeepsGuids(rows, steps, p, terms);
    var last := TickIsGoodRun(w, tick, w', p, terms);
    GoodRunConcat(rows, steps, w.rows, last, w'.rows, p, terms, n, 1);
    more := steps + last;
  }

  lemma {:induction false} TicksAreGoodRun(books: seq<Books>, ticks: seq<Tick>, n: nat, p: Pair, terms: Terms)
    returns (steps: seq<Runs.Step>)
    requires TickRun(books, ticks, p, terms) && n <= |ticks| && UniqueGuids(books[0].rows)
    ensures GoodRun(books[0].rows, steps, books[n].rows, p, terms, n)
  {
    steps := [];
    if n > 0 {
      steps := TicksAreGoodRun(books, ticks, n - 1, p, terms);
      steps := OneMoreTick(books[0].rows, steps, books[n - 1], ticks[n - 1], books[n], p, terms, n - 1);
    }
  }

  /** The `n` fresh deposits of a pair are all `done` after 2 * ceil(n / 1000) ticks of the service in which nothing
      fails for it, whatever the ticks do for others and whatever arrives and is requested between them. */
  lemma TicksDrain(books: seq<Books>, ticks: seq<Tick>, p: Pair, terms: Terms)
    requires TickRun(books, ticks, p, terms)
    requires var rows := books[0].rows; UniqueGuids(rows) && Profitable(rows, p, terms) && FreshOrFinal(rows, p)
    requires |ticks| >= TwoPerBatch(Unfinished(books[0].rows, p))
    ensures Drained(books[0].rows, books[|ticks|].rows, p)
  {
    var steps := TicksAreGoodRun(books, ticks, |ticks|, p, terms);
    DrainBound(books[0].rows, steps, p, terms);
  }
}
