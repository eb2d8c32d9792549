# Two C teaching programs, modelled in Dafny

The repository holds two small C programs about function-call semantics.

- `Functions/function_swap.c` contrasts pass by value with pass by reference.
  `f1(int a, int b)` swaps its own copies of its arguments, so the caller sees
  no change. `f2(int *a, int *b)` swaps the two integers its pointers address,
  through a temporary. `main` starts from `a = 4, b = 5, c = 6`, calls
  `f1(a, b)` and then `f2(&b, &c)`, and prints `c - a - b`, which is -5.
- `Functions/static_for_loop.c` has `fun()`, which owns `static int num = 16`
  and returns `num--`. `main` runs `for (fun(); fun(); fun())
  printf("%d ", fun());`. That is one call in the initialiser, then three
  calls per pass: the condition, the body and the step. Only a condition value
  of exactly 0 ends the loop. The program prints `14 11 8 5 2 ` and leaves
  `num` at -1.

Module `FunctionSwap` (`function_swap.dfy`) models main's frame as an
`array<int>`: `a`, `b` and `c` sit at indices 0, 1 and 2, and an index plays
the role of an address. `SwapCells` is `f2`. It has `modifies mem` and is
proved against the function `Swapped`. `SwapCopies` is `f1`. It takes value
parameters and has no `modifies` clause, so no caller frame can change.

Module `StaticForLoop` (`static_for_loop.dfy`) models the static variable as
the field `num` of class `Counter`. The constructor is the once-only
initialisation, and `Counter.Fun` is `fun`. A ghost field counts the calls.
The `for` loop is the method `ForLoop`: a `while` loop whose guard is the
value of the last condition call. `ForLoop` is proved against
`AfterPasses(n, k)`, the pure state after the initialiser and `k` passes.
The lemmas about `AfterPasses` give the closed form, the exact stopping pass,
and the fact that the loop terminates iff `n >= 1 && (n - 1) % 3 == 0`,
after `(n - 1) / 3` passes.

The loop is easy to misread as stopping on a zero *or negative* condition
value, so that a start value of 0 or below would give zero passes. The
condition is a C truth test, though, so only 0 stops the loop. With `num`
starting at 0 the first condition call returns -1. Over unbounded integers
the loop then never ends; in C it runs until `num--` overflows.
The model follows the code: see `NegativeContinues` and `TerminatesIff`.

## Model

| member | source | states |
|---|---|---|
| FunctionSwap.Swapped | Functions/function_swap.c:31-34 | exchanging through a temporary puts the old value at `q` into cell `p`, the old value at `p` into cell `q`, and keeps every other cell and the frame's size |
| FunctionSwap.SwappedSameCell | Functions/function_swap.c:32-34 | when both pointers address the same cell, the swap leaves the frame unchanged |
| FunctionSwap.SwappedTwice | Functions/function_swap.c:29-35 | swapping the same pair twice restores the frame (the swap is an involution) |
| FunctionSwap.SwappedSymmetric | Functions/function_swap.c:29-35 | `f2(&x, &y)` and `f2(&y, &x)` have the same effect |
| FunctionSwap.SwappedPermutes | Functions/function_swap.c:32-34 | the swap keeps the multiset of values in the frame |
| FunctionSwap.SwapCells | Functions/function_swap.c:29-35 | `f2` leaves the frame equal to `Swapped` of the old frame: the two cells are exchanged and every other cell keeps its value |
| FunctionSwap.SwapCopies | Functions/function_swap.c:20-26 | `f1` exchanges its own copies; it has no `modifies` clause, so the caller's variables cannot change |
| FunctionSwap.SwapDemo | Functions/function_swap.c:37-45 | for any initial `a, b, c`, after `f1(a, b); f2(&b, &c)` the state is `a, c, b` (`f1` changed nothing) and the printed value is `b - a - c` in terms of the initial values |
| FunctionSwap.SwapProgram | Functions/function_swap.c:39-45 | starting from 4, 5, 6 the final state is `a = 4, b = 6, c = 5` and the printed value is -5 |
| StaticForLoop.Counter.constructor | Functions/static_for_loop.c:22 | the static counter is initialised once to the given start value (16 in the program), and no call of `fun` has happened yet |
| StaticForLoop.Counter.Fun | Functions/static_for_loop.c:20-24 | `fun` returns the counter's current value and leaves it exactly one smaller; it never re-initialises the counter |
| StaticForLoop.AfterPasses | Functions/static_for_loop.c:31-32 | defines the loop's state after the initialiser's call and `k` passes: each pass is a condition call returning the counter, a body call returning one less (the printed value) and a step call, three decrements in all; one value is printed per pass and `1 + 3k` calls are made |
| StaticForLoop.StopsAt | Functions/static_for_loop.c:31-32 | defines the stop test: the condition call of pass `k` returns exactly 0 and no earlier condition call returned 0 |
| StaticForLoop.AfterPassesShape | Functions/static_for_loop.c:23-32 | after the initialiser and `k` passes, the counter is `n - 1 - 3k`, `1 + 3k` calls have been made, and the body printed exactly `n - 2 - 3i` for `i < k` |
| StaticForLoop.AfterPassesPrefix | Functions/static_for_loop.c:31-32 | later passes only append to the printed values |
| StaticForLoop.StopsAtIff | Functions/static_for_loop.c:22-32 | the condition first returns 0 at pass `k` iff `n >= 1`, `(n - 1) % 3 == 0` and `k == (n - 1) / 3` |
| StaticForLoop.TerminatesIff | Functions/static_for_loop.c:22-32 | the loop ends for some pass iff `n >= 1 && (n - 1) % 3 == 0` |
| StaticForLoop.NegativeContinues | Functions/static_for_loop.c:31 | a negative condition value does not stop the loop, and every later condition value is negative too, so the loop never stops |
| StaticForLoop.PrintedValues | Functions/static_for_loop.c:31-32 | each printed value is one less than the condition value of its pass, and successive printed values differ by 3 |
| StaticForLoop.SixteenTrace | Functions/static_for_loop.c:22-32 | from 16 the loop stops at pass 5 after printing exactly `[14, 11, 8, 5, 2]` (the final counter value -1 is proved by `LoopProgram` through `ForLoop`) |
| StaticForLoop.ForLoop | Functions/static_for_loop.c:31-32 | the `for` loop, driven only by `fun` calls, stops at the first zero condition value; it returns the body values `AfterPasses` predicts, leaves the counter at -1, and makes one initialiser call, three calls per pass and a final condition call |
| StaticForLoop.LoopDemo | Functions/static_for_loop.c:26-34 | for a terminating start value `n`, `main` prints `(n - 1) / 3` values, the `i`-th being `n - 2 - 3i`, and the counter ends at -1 |
| StaticForLoop.LoopProgram | Functions/static_for_loop.c:22-34 | `main` as written prints `14 11 8 5 2` and leaves the counter at -1 |

## Left out

- `printf` and its formatting (`"%d"`, `"%d "`, the trailing space, no newline): the printed values are returned as an `int` or a `seq<int>`.
- C's 32-bit `int`, signed overflow and undefined behaviour: the model uses unbounded integers.
- StaticForLoop.ForLoop: requires a start value for which the loop ends (`n >= 1 && (n - 1) % 3 == 0`). For any other value the C loop runs until `num` overflows, and that is undefined behaviour. Over unbounded integers that loop never ends, so the method cannot be written for it. `NegativeContinues` and `TerminatesIff` state the divergence about `AfterPasses` instead.
- StaticForLoop.LoopDemo: has the same requires as `ForLoop`, for the same reason.
- FunctionSwap.SwapCopies: C's `f1` returns `void`. The out-parameters only expose the final values of the callee's copies so that the contract can say what `f1` does to them, and the caller drops them.
- Invalid or null pointers given to `f2`: addresses are modelled as valid indices into the caller's frame.
- The header comments of both files hold no behaviour.
