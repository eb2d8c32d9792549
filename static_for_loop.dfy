/** A function with a persistent counter drives a `for` loop.

    `fun` owns `static int num = 16`: the initialisation happens once, and
    every call returns the current value and then decrements it. `main` runs
    `for (fun(); fun(); fun()) printf("%d ", fun());`, so one call happens in
    the initialiser and then each pass makes three: the condition, the body
    and the step. The condition is a C truth test: only a return value of
    exactly 0 ends the loop, a negative one continues it. */
module StaticForLoop {

  /** The value `num` is initialised to. */
  const InitialNum: int := 16

  /** The persistent state of `fun`. */
  class Counter {
    /** The value of `static int num`. */
    var num: int
    /** How many times `fun` has been called. */
    ghost var calls: nat

    /** The once-only initialisation of the static variable. */
    constructor (initial: int)
      ensures num == initial && calls == 0
    {
      num := initial;
      calls := 0;
    }

    /** `fun`: `return num--;` returns the current value, then decrements it. */
    method Fun() returns (r: int)
      modifies this
      ensures r == old(num)
      ensures num == old(num) - 1
      ensures calls == old(calls) + 1
    {
      r := num;
      num := num - 1;
      calls := calls + 1;
    }
  }

  /** What the loop has done so far: the counter, the values the body printed
      and the number of calls of `fun` made. */
  datatype Machine = Machine(num: int, out: seq<int>, calls: nat)

  /** The state after the initialiser's call and `k` complete passes, each of
      which is a condition call that returned non-zero, a body call whose
      value is printed, and a step call. `num` is the value the next
      condition call returns. The body printed one value per pass, and the
      initialiser and the passes made `1 + 3 * k` calls. */
  function AfterPasses(n: int, k: nat): (m: Machine)
    ensures |m.out| == k
    ensures m.calls == 1 + 3 * k
  {
    if k == 0 then Machine(n - 1, [], 1)
    else
      var m := AfterPasses(n, k - 1);
      var cond := m.num;
      var body := cond - 1;
      var step := body - 1;
      Machine(step - 1, m.out + [body], m.calls + 3)
  }

  /** The loop stops at pass `k`: the condition call of pass `k` returns 0,
      and no earlier condition call did. */
  ghost predicate StopsAt(n: int, k: nat)
  {
    AfterPasses(n, k).num == 0 && forall j: nat :: j < k ==> AfterPasses(n, j).num != 0
  }

  /** The initial values for which the loop ends. */
  predicate Terminates(n: int)
  {
    n >= 1 && (n - 1) % 3 == 0
  }

  /** After `k` passes the counter lost one per call, three per pass, and the
      body printed `n - 2`, `n - 5`, ... */
  lemma {:induction false} AfterPassesShape(n: int, k: nat)
    ensures AfterPasses(n, k).num == n - 1 - 3 * k
    ensures AfterPasses(n, k).calls == 1 + 3 * k
    ensures |AfterPasses(n, k).out| == k
    ensures forall i :: 0 <= i < k ==> AfterPasses(n, k).out[i] == n - 2 - 3 * i
  {
    if k > 0 {
      AfterPassesShape(n, k - 1);
    }
  }

  /** Passes only append to the output: the first `j` printed values stay. */
  lemma {:induction false} AfterPassesPrefix(n: int, j: nat, k: nat)
    requires j <= k
    ensures |AfterPasses(n, k).out| == k
    ensures AfterPasses(n, j).out == AfterPasses(n, k).out[..j]
  {
    AfterPassesShape(n, j);
    AfterPassesShape(n, k);
  }

  /** The loop stops at pass `k` exactly when `n` is one more than a multiple
      of three, `n >= 1`, and `k` is `(n - 1) / 3`. */
  lemma StopsAtIff(n: int, k: nat)
    ensures StopsAt(n, k) <==> Terminates(n) && k == (n - 1) / 3
  {
    AfterPassesShape(n, k);
    if Terminates(n) && k == (n - 1) / 3 {
      forall j: nat | j < k ensures AfterPasses(n, j).num != 0 {
        AfterPassesShape(n, j);
      }
    }
  }

  /** The loop ends for some pass exactly for the initial values `Terminates` names. */
  lemma TerminatesIff(n: int)
    ensures (exists k: nat :: StopsAt(n, k)) <==> Terminates(n)
  {
    if Terminates(n) {
      StopsAtIff(n, (n - 1) / 3);
    }
    if k: nat :| StopsAt(n, k) {
      StopsAtIff(n, k);
    }
  }

  /** A negative condition value does not stop the loop, and all later ones
      stay negative: from then on the loop never ends. */
  lemma NegativeContinues(n: int, k: nat, j: nat)
    requires AfterPasses(n, k).num < 0
    requires k <= j
    ensures !StopsAt(n, j)
    ensures AfterPasses(n, j).num < 0
  {
    AfterPassesShape(n, k);
    AfterPassesShape(n, j);
  }

  /** Each printed value is one less than the condition value of its pass,
      and successive printed values differ by three. */
  lemma PrintedValues(n: int, k: nat, i: nat)
    requires i < k
    ensures |AfterPasses(n, k).out| == k
    ensures AfterPasses(n, k).out[i] == AfterPasses(n, i).num - 1
    ensures i + 1 < k ==> AfterPasses(n, k).out[i] - AfterPasses(n, k).out[i + 1] == 3
  {
    AfterPassesShape(n, k);
    AfterPassesShape(n, i);
  }

  /** With `num` starting at 16 the loop stops at the sixth condition call,
      after five passes that printed 14 11 8 5 2. */
  lemma SixteenTrace()
    ensures StopsAt(InitialNum, 5)
    ensures AfterPasses(InitialNum, 5).out == [14, 11, 8, 5, 2]
  {
  }

  /** The `for (fun(); fun(); fun()) printf("%d ", fun());` loop on a counter
      holding `n`; returns the printed values in order. Only initial values
      for which the loop ends are accepted. */
  method ForLoop(counter: Counter) returns (out: seq<int>)
    requires Terminates(counter.num)
    modifies counter
    ensures StopsAt(old(counter.num), (old(counter.num) - 1) / 3)
    ensures out == AfterPasses(old(counter.num), (old(counter.num) - 1) / 3).out
    ensures counter.num == -1
    ensures counter.calls == old(counter.calls) + 3 * ((old(counter.num) - 1) / 3) + 2
  {
    ghost var n := counter.num;
    ghost var calls0 := counter.calls;
    ghost var k: nat := 0;
    var _ := counter.Fun();           // initialiser
    out := [];
    var cond := counter.Fun();        // first condition
    while cond != 0
      invariant 0 <= k <= (n - 1) / 3
      invariant cond == AfterPasses(n, k).num == n - 1 - 3 * k
      invariant out == AfterPasses(n, k).out
      invariant counter.num == cond - 1
      invariant counter.calls == calls0 + AfterPasses(n, k).calls + 1
      invariant forall j: nat :: j < k ==> AfterPasses(n, j).num != 0
      decreases cond
    {
      AfterPassesShape(n, k);
      var body := counter.Fun();      // body: printf("%d ", fun())
      out := out + [body];
      var _ := counter.Fun();         // step
      k := k + 1;
      cond := counter.Fun();          // condition
      AfterPassesShape(n, k);
    }
    AfterPassesShape(n, k);
  }

  /** `main` for a counter that starts at `n`: returns the printed values and
      the counter's final value. */
  method LoopDemo(n: int) returns (out: seq<int>, last: int)
    requires Terminates(n)
    ensures |out| == (n - 1) / 3
    ensures forall i :: 0 <= i < |out| ==> out[i] == n - 2 - 3 * i
    ensures last == -1
  {
    var counter := new Counter(n);
    out := ForLoop(counter);
    last := counter.num;
    AfterPassesShape(n, (n - 1) / 3);
  }

  /** `main` as written: prints 14 11 8 5 2 and leaves `num` at -1. */
  method LoopProgram() returns (out: seq<int>, last: int)
    ensures out == [14, 11, 8, 5, 2]
    ensures last == -1
  {
    var counter := new Counter(InitialNum);
    out := ForLoop(counter);
    last := counter.num;
    SixteenTrace();
  }
}
