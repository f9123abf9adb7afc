/**
 * Shared vocabulary of the jackfish model: the window status enum, an
 * option type, Python's insertion-ordered dict of channel names to
 * nicknames, and Python's extended slicing on lists.
 */
module Common {

  /** The three states of a device window (`Status` in jackfish/utils.py). */
  datatype Status = Standby | Recording | Previewing

  datatype Option<T> = None | Some(value: T)

  // ---------------------------------------------------------------------
  // Insertion-ordered dict from channel name to nickname
  // ---------------------------------------------------------------------

  /** A Python `dict[str, str]`, as the list of its items in insertion order. */
  type Dict = seq<(string, string)>

  /** `d.keys()` in order. */
  function Keys(d: Dict): seq<string>
  {
    seq(|d|, i requires 0 <= i < |d| => d[i].0)
  }

  /** `d.values()` in order. */
  function Values(d: Dict): seq<string>
  {
    seq(|d|, i requires 0 <= i < |d| => d[i].1)
  }

  predicate Distinct<T(==)>(s: seq<T>)
  {
    forall i, j :: 0 <= i < j < |s| ==> s[i] != s[j]
  }

  /** A well-formed dict: no key occurs twice. */
  predicate IsDict(d: Dict)
  {
    Distinct(Keys(d))
  }

  /**
   * `d[k] = v`: a present key keeps its position and takes the new value,
   * an absent key is appended at the end.
   */
  function Put(d: Dict, k: string, v: string): (r: Dict)
    ensures k in Keys(d) ==> Keys(r) == Keys(d)
    ensures k !in Keys(d) ==> r == d + [(k, v)] && Keys(r) == Keys(d) + [k]
    ensures forall i :: 0 <= i < |r| ==> (r[i].0 == k ==> r[i].1 == v)
    ensures forall i :: 0 <= i < |d| && d[i].0 != k ==> r[i] == d[i]
    ensures IsDict(d) ==> IsDict(r)
  {
    if k in Keys(d) then
      seq(|d|, i requires 0 <= i < |d| => if d[i].0 == k then (k, v) else d[i])
    else
      assert forall i :: 0 <= i < |d| ==> Keys(d)[i] == d[i].0 != k;
      assert Keys(d + [(k, v)]) == Keys(d) + [k];
      d + [(k, v)]
  }

  // ---------------------------------------------------------------------
  // Python slicing
  // ---------------------------------------------------------------------

  /**
   * How Python turns a slice bound `i` into a position of a list of
   * length `len`: a negative bound counts from the end, and the result is
   * clamped into `0..len`.
   */
  function PyIndex(i: int, len: nat): (p: nat)
    ensures p <= len
    ensures 0 <= i <= len ==> p == i
    ensures -(len as int) <= i < 0 ==> p == len + i
    ensures i < -(len as int) ==> p == 0
    ensures i > len ==> p == len
  {
    if i < 0 then (if i + len < 0 then 0 else i + len)
    else if i > len then len else i
  }

  /** `s[start:stop:step]` for a positive step, once the bounds are normalised. */
  function StepSlice<T>(s: seq<T>, start: nat, stop: nat, step: nat): seq<T>
    requires step > 0 && stop <= |s|
    decreases if start < stop then stop - start else 0
  {
    if start >= stop then [] else [s[start]] + StepSlice(s, start + step, stop, step)
  }

  /**
   * The j-th element of a step slice is `s[start + j*step]`, and the slice
   * has exactly the elements whose position stays below `stop`.
   */
  lemma {:induction false} StepSliceAt<T>(s: seq<T>, start: nat, stop: nat, step: nat, j: nat)
    requires step > 0 && stop <= |s|
    ensures j < |StepSlice(s, start, stop, step)| <==> start + j * step < stop
    ensures j < |StepSlice(s, start, stop, step)| ==> StepSlice(s, start, stop, step)[j] == s[start + j * step]
    decreases j
  {
    assert j * step >= 0;
    if start < stop && j > 0 {
      StepSliceAt(s, start + step, stop, step, j - 1);
      assert start + step + (j - 1) * step == start + j * step;
    } else if start >= stop {
      assert start + j * step >= stop;
    }
  }

  /** `xs[-k:]`: the last `k` elements, or all of them when there are fewer (and all of them when `k` is 0). */
  function TakeLast<T>(xs: seq<T>, k: nat): (r: seq<T>)
    ensures k == 0 || k >= |xs| ==> r == xs
    ensures 0 < k <= |xs| ==> |r| == k
    ensures forall i :: 0 <= i < |r| ==> r[i] == xs[|xs| - |r| + i]
  {
    xs[PyIndex(-(k as int), |xs|)..]
  }
}
