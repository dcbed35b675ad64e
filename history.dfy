/** One channel's history: a list of rendered turns that never keeps more than
    `MaxTurns` entries, the oldest being dropped first. */
module TurnHistory {

  /** The cap tested by `len(history) > 15` after each append. */
  const MaxTurns: nat := 15

  /** The last `n` entries of `s` (all of `s` when it is shorter). */
  function LastN(s: seq<string>, n: nat): (r: seq<string>)
    ensures |r| == if |s| <= n then |s| else n
    ensures r == s[|s| - |r|..]
  {
    if |s| <= n then s else s[|s| - n..]
  }

  /** `history.append(x)` followed by `if len(history) > 15: history.pop(0)`. */
  function CapAppend(h: seq<string>, x: string): (r: seq<string>)
    ensures |h| < MaxTurns ==> r == h + [x]
    ensures |h| >= MaxTurns ==> r == h[1..] + [x]
  {
    var g := h + [x];
    if |g| > MaxTurns then g[1..] else g
  }

  /** A history within the cap stays within it, and keeps its last entries. */
  lemma CapAppendKeepsLast(h: seq<string>, x: string)
    requires |h| <= MaxTurns
    ensures |CapAppend(h, x)| <= MaxTurns
    ensures CapAppend(h, x) == LastN(h + [x], MaxTurns)
  {
    if |h| == MaxTurns {
      assert (h + [x])[1..] == h[1..] + [x];
    }
  }

  /** The history left by appending every entry of `xs` in order, each append
      followed by the single eviction. */
  function AppendAll(h: seq<string>, xs: seq<string>): seq<string>
    decreases |xs|
  {
    if xs == [] then h else AppendAll(CapAppend(h, xs[0]), xs[1..])
  }

  /** Cutting to the last `n` early or late gives the same last `n`. */
  lemma LastNOfLastN(s: seq<string>, t: seq<string>, n: nat)
    ensures LastN(LastN(s, n) + t, n) == LastN(s + t, n)
  {
    var u := LastN(s, n);
    assert s + t == s[..|s| - |u|] + (u + t);
  }

  /** FIFO eviction: however many entries are appended, the history holds
      exactly the most recent `MaxTurns` of the old and the new ones. */
  lemma {:induction false} AppendAllKeepsLast(h: seq<string>, xs: seq<string>)
    requires |h| <= MaxTurns
    ensures AppendAll(h, xs) == LastN(h + xs, MaxTurns)
    ensures |AppendAll(h, xs)| <= MaxTurns
    decreases |xs|
  {
    if xs == [] {
      assert h + xs == h;
    } else {
      var h1 := CapAppend(h, xs[0]);
      CapAppendKeepsLast(h, xs[0]);
      AppendAllKeepsLast(h1, xs[1..]);
      LastNOfLastN(h + [xs[0]], xs[1..], MaxTurns);
      assert h + [xs[0]] + xs[1..] == h + xs;
    }
  }

  /** Sixteen appends to an empty history keep the last fifteen: the first
      entry is the one evicted. */
  lemma {:induction false} SixteenAppendsEvictFirst(xs: seq<string>)
    requires |xs| == 16
    ensures AppendAll([], xs) == xs[1..]
  {
    var empty: seq<string> := [];
    AppendAllKeepsLast(empty, xs);
    assert empty + xs == xs;
    assert LastN(xs, MaxTurns) == xs[1..];
  }
}
