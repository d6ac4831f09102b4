/** The assessment progress grid: for every task module, one completion flag
    per step. A missing module, or a step beyond the end of its list, reads as
    "not done", exactly like an absent key or an array hole in the engine. */
module Grid {
  import opened Domain

  /** Steps per task module: five modules of seven steps, 35 cells in all. */
  const StepCounts: seq<nat> := [7, 7, 7, 7, 7]

  /** Cell `(m, i)` of `g` is marked done. */
  predicate Cell(g: TaskGrid, m: int, i: int) {
    m in g && 0 <= i < |g[m]| && g[m][i]
  }

  /** `n` flags, all false. */
  function Falses(n: nat): (r: seq<bool>)
    ensures |r| == n
    ensures forall k :: 0 <= k < n ==> !r[k]
  {
    if n == 0 then [] else Falses(n - 1) + [false]
  }

  /** The step list with flag `i` set; a list too short is first padded with
      false, as writing past the end of a JavaScript array does. */
  function SetStep(steps: seq<bool>, i: nat): (r: seq<bool>)
    ensures |r| == if i < |steps| then |steps| else i + 1
    ensures r[i]
    ensures forall k :: 0 <= k < |r| && k != i ==> r[k] == (k < |steps| && steps[k])
  {
    if i < |steps| then steps[i := true] else steps + Falses(i - |steps|) + [true]
  }

  /** The grid with cell `(m, i)` marked done, creating the module's list if absent. */
  function MarkCell(g: TaskGrid, m: int, i: nat): (r: TaskGrid)
    ensures r.Keys == g.Keys + {m}
    ensures forall m', i' :: Cell(r, m', i') <==> Cell(g, m', i') || (m' == m && i' == i)
    ensures forall m' :: m' in g && m' != m ==> r[m'] == g[m']
    ensures m in g && i < |g[m]| ==> |r[m]| == |g[m]|
  {
    g[m := SetStep(if m in g then g[m] else [], i)]
  }

  /** The grid of a fresh session: every module of `counts` present, all flags false. */
  function InitialGrid(counts: seq<nat>): (r: TaskGrid)
    ensures Shaped(r, counts)
    ensures forall m, i :: !Cell(r, m, i)
  {
    map m | 0 <= m < |counts| :: Falses(counts[m])
  }

  /** `g` has exactly the modules of `counts`, each with its number of steps. */
  ghost predicate Shaped(g: TaskGrid, counts: seq<nat>) {
    && (forall m :: m in g <==> 0 <= m < |counts|)
    && (forall m :: 0 <= m < |counts| ==> |g[m]| == counts[m])
  }

  /** Cell `(m, i)` lies inside the shape `counts`. */
  predicate InShape(counts: seq<nat>, m: int, i: int) {
    0 <= m < |counts| && 0 <= i < counts[m]
  }

  /** Every flag of `g` is also set in `h`. */
  ghost predicate Grows(g: TaskGrid, h: TaskGrid) {
    forall m, i :: Cell(g, m, i) ==> Cell(h, m, i)
  }

  /** Marking a cell inside the shape keeps the shape. */
  lemma MarkCellKeepsShape(g: TaskGrid, counts: seq<nat>, m: int, i: nat)
    requires Shaped(g, counts) && InShape(counts, m, i)
    ensures Shaped(MarkCell(g, m, i), counts)
  {
  }

  /** Marking the same cell twice is marking it once. */
  lemma {:induction false} MarkCellIdempotent(g: TaskGrid, m: int, i: nat)
    ensures MarkCell(MarkCell(g, m, i), m, i) == MarkCell(g, m, i)
  {
    var h := MarkCell(g, m, i);
    assert h[m][i];
    assert SetStep(h[m], i) == h[m];
  }
}
