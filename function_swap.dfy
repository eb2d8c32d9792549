/** Pass by value versus pass by reference: two ways of "swapping" two ints.

    The caller's local variables live in a frame, modelled as an `array<int>`
    whose indices play the role of addresses. A function that receives
    addresses (`int *`) may write the frame; one that receives values may not,
    which Dafny expresses by the absence of a `modifies` clause. */
module FunctionSwap {

  /** The frame `s` after the cells at `p` and `q` were exchanged through a
      temporary: first the cell at `p` takes the value at `q`, then the cell
      at `q` takes the saved value of `p`. */
  function Swapped(s: seq<int>, p: nat, q: nat): (r: seq<int>)
    requires p < |s| && q < |s|
    ensures |r| == |s|
    ensures r[p] == s[q] && r[q] == s[p]
    ensures forall k :: 0 <= k < |s| && k != p && k != q ==> r[k] == s[k]
  {
    s[p := s[q]][q := s[p]]
  }

  /** Exchanging a cell with itself leaves the frame as it was. */
  lemma SwappedSameCell(s: seq<int>, p: nat)
    requires p < |s|
    ensures Swapped(s, p, p) == s
  {
  }

  /** Swapping the same pair twice restores the frame. */
  lemma SwappedTwice(s: seq<int>, p: nat, q: nat)
    requires p < |s| && q < |s|
    ensures Swapped(Swapped(s, p, q), p, q) == s
  {
  }

  /** The two swap orders agree: `f2(&x, &y)` and `f2(&y, &x)` have the same effect. */
  lemma SwappedSymmetric(s: seq<int>, p: nat, q: nat)
    requires p < |s| && q < |s|
    ensures Swapped(s, p, q) == Swapped(s, q, p)
  {
  }

  /** Swapping keeps the multiset of values in the frame. */
  lemma SwappedPermutes(s: seq<int>, p: nat, q: nat)
    requires p < |s| && q < |s|
    ensures multiset(Swapped(s, p, q)) == multiset(s)
  {
  }

  /** `f2`: swap the two cells at addresses `p` and `q` of `mem` through a
      temporary. The addresses may be equal, in which case nothing changes. */
  method SwapCells(mem: array<int>, p: nat, q: nat)
    requires p < mem.Length && q < mem.Length
    modifies mem
    ensures mem[..] == Swapped(old(mem[..]), p, q)
    ensures mem[p] == old(mem[q]) && mem[q] == old(mem[p])
    ensures forall k :: 0 <= k < mem.Length && k != p && k != q ==> mem[k] == old(mem[k])
  {
    var c := mem[p];
    mem[p] := mem[q];
    mem[q] := c;
  }

  /** `f1`: receives copies of two ints and swaps the copies through a
      temporary. The C function returns nothing; the out-parameters expose
      the final values of the callee's own copies, which the caller drops.
      Without a `modifies` clause it cannot touch any caller's frame. */
  method SwapCopies(a: int, b: int) returns (a': int, b': int)
    ensures a' == b && b' == a
  {
    a', b' := a, b;
    var c := a';
    a' := b';
    b' := c;
  }

  /** `main` for arbitrary initial values of `a`, `b`, `c`: call `f1(a, b)`,
      then `f2(&b, &c)`, then compute the printed value `c - a - b`. */
  method SwapDemo(a0: int, b0: int, c0: int) returns (a: int, b: int, c: int, printed: int)
    ensures a == a0 && b == c0 && c == b0
    ensures printed == b0 - a0 - c0
  {
    var frame := new int[3];
    frame[0], frame[1], frame[2] := a0, b0, c0;
    var copyA, copyB := SwapCopies(frame[0], frame[1]);
    assert copyA == b0 && copyB == a0;
    assert frame[..] == [a0, b0, c0];  // f1 left the caller's variables alone
    SwapCells(frame, 1, 2);
    a, b, c := frame[0], frame[1], frame[2];
    printed := c - a - b;
  }

  /** `main` as written: a = 4, b = 5, c = 6; it ends with a = 4, b = 6,
      c = 5 and prints -5. */
  method SwapProgram() returns (a: int, b: int, c: int, printed: int)
    ensures a == 4 && b == 6 && c == 5
    ensures printed == -5
  {
    a, b, c, printed := SwapDemo(4, 5, 6);
  }
}
