/** The waiting times a queue keeps for its statistics: the latest part of the
    waits of everything it ever delivered. */
module WaitWindow {
  ghost predicate IsLatest(window: seq<real>, history: seq<real>) {
    |window| <= |history| && window == history[|history| - |window|..]
  }

  lemma LatestOneMore(window: seq<real>, history: seq<real>, w: real, keep: nat)
    requires IsLatest(window, history) && keep <= |window| + 1
    ensures IsLatest((window + [w])[|window| + 1 - keep..], history + [w])
    ensures IsLatest(window + [w], history + [w])
  {
  }

  /** The size of a window after `n` waits that is cut to 5000 each time it exceeds
      10000. */
  function WindowSize(n: nat): (size: nat)
    ensures size <= 10000 && (size == n || size >= 5000)
  {
    if n == 0 then 0 else if WindowSize(n - 1) == 10000 then 5000 else WindowSize(n - 1) + 1
  }

  lemma {:induction false} WindowSizeIs(n: nat)
    ensures WindowSize(n) == if n <= 10000 then n else 5000 + (n - 10001) % 5001
  {
    if n > 0 {
      WindowSizeIs(n - 1);
    }
  }
}
