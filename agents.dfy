/**
 * The base forager of python/agent.py: its constants, its bounded memory of
 * observed fruit keys, the frequency estimate over that memory and the two
 * rate laws that turn a frequency into a pick-up or release probability.
 */
module Agents {
  import opened Wrappers
  import opened Reals

  const KPlus: real := 0.1
  const KMinus: real := 0.3
  const MemoryLength: nat := 100
  const ErrorRate: real := 0.0
  /** The colour an agent has when it carries nothing (python/agent.py:14, 59). */
  const FreeColour: int := 3

  /** One memory entry: the key of an observed fruit, or `0` when none was near. */
  datatype Obs = NoFruit | Saw(key: string)

  /** `Agent` or `HelperAgent`, the runtime class the source tests with `type(..)`. */
  datatype Role = Forager | Helper

  /**
   * An agent's state. `fruit` and `helper` are indices into the environment's
   * fruit and agent lists; `isHelping` and `helper` are used by `HelperAgent`
   * only.
   */
  datatype Agent = Agent(
    role: Role,
    x: int,
    y: int,
    memory: seq<Obs>,
    fruit: Option<nat>,
    color: int,
    isHelping: bool,
    helper: Option<nat>)

  /** `Agent(x, y, parent)`, and for a helper `HelperAgent(x, y, parent)`. */
  function NewAgent(role: Role, x: int, y: int): (a: Agent)
    ensures a.role == role && a.x == x && a.y == y
    ensures a.memory == [] && a.fruit == None && a.color == FreeColour
    ensures !a.isHelping && a.helper == None
  {
    Agent(role, x, y, [], None, FreeColour, false, None)
  }

  /** Number of entries equal to `key`: how often `Saw(key)` occurs in the memory. */
  function Matches(memory: seq<Obs>, key: string): (c: nat)
    ensures c == multiset(memory)[Saw(key)]
  {
    if memory == [] then 0
    else
      assert memory == memory[..|memory| - 1] + [memory[|memory| - 1]];
      Matches(memory[..|memory| - 1], key) + (if memory[|memory| - 1] == Saw(key) then 1 else 0)
  }

  /**
   * Number of entries that are some other key: every entry that is neither
   * `Saw(key)` nor a `0` entry.
   */
  function Mismatches(memory: seq<Obs>, key: string): (c: nat)
    ensures c == |memory| - multiset(memory)[Saw(key)] - multiset(memory)[NoFruit]
  {
    if memory == [] then 0
    else
      assert memory == memory[..|memory| - 1] + [memory[|memory| - 1]];
      Mismatches(memory[..|memory| - 1], key) + (if memory[|memory| - 1].Saw? && memory[|memory| - 1] != Saw(key) then 1 else 0)
  }

  /** Matches and mismatches together never exceed the memory length. */
  lemma {:induction false} CountsBounded(memory: seq<Obs>, key: string)
    ensures Matches(memory, key) + Mismatches(memory, key) <= |memory|
  {
    if memory != [] {
      CountsBounded(memory[..|memory| - 1], key);
    }
  }

  /**
   * `get_frequency(key)`: `0` on an empty memory, otherwise
   * `(matches + mismatches * error_rate) / len(memory)`, which lies in [0, 1].
   */
  function Frequency(memory: seq<Obs>, key: string): (f: real)
    ensures 0.0 <= f <= 1.0
    ensures memory == [] ==> f == 0.0
  {
    if memory == [] then 0.0
    else
      CountsBounded(memory, key);
      var num := Matches(memory, key) as real + Mismatches(memory, key) as real * ErrorRate;
      assert 0.0 <= num <= |memory| as real;
      Ratio(num, |memory| as real);
      num / |memory| as real
  }

  /** A memory made only of `key` gives frequency 1. */
  lemma FrequencyOfUniformMemory(memory: seq<Obs>, key: string)
    requires memory != []
    requires forall i :: 0 <= i < |memory| ==> memory[i] == Saw(key)
    ensures Frequency(memory, key) == 1.0
  {
    MatchesOfUniform(memory, key);
    SelfRatio(|memory| as real);
  }

  lemma {:induction false} MatchesOfUniform(memory: seq<Obs>, key: string)
    requires forall i :: 0 <= i < |memory| ==> memory[i] == Saw(key)
    ensures Matches(memory, key) == |memory|
  {
    if memory != [] {
      MatchesOfUniform(memory[..|memory| - 1], key);
    }
  }

  /** Overwriting one entry with `key` changes the two counts by at most one, in the expected direction. */
  lemma {:induction false} CountsAfterOverwrite(memory: seq<Obs>, key: string, j: nat)
    requires j < |memory|
    ensures Matches(memory[j := Saw(key)], key) == Matches(memory, key) + (if memory[j] == Saw(key) then 0 else 1)
    ensures Mismatches(memory[j := Saw(key)], key) + (if memory[j].Saw? && memory[j] != Saw(key) then 1 else 0) == Mismatches(memory, key)
  {
    var last := |memory| - 1;
    if j < last {
      assert memory[j := Saw(key)][..last] == memory[..last][j := Saw(key)];
      CountsAfterOverwrite(memory[..last], key, j);
    } else {
      assert memory[j := Saw(key)][..last] == memory[..last];
    }
  }

  /** The frequency of `key` does not decrease when another entry becomes `key`. */
  lemma FrequencyMonotone(memory: seq<Obs>, key: string, j: nat)
    requires j < |memory|
    ensures Frequency(memory, key) <= Frequency(memory[j := Saw(key)], key)
  {
    var after := memory[j := Saw(key)];
    CountsAfterOverwrite(memory, key, j);
    WeightedMonotone(Matches(memory, key), Mismatches(memory, key), Matches(after, key), Mismatches(after, key));
    FrequencyOrdered(memory, after, key);
  }

  /** Trading a mismatch for a match, or adding a match, does not lower the weighted count. */
  lemma WeightedMonotone(c: nat, o: nat, c': nat, o': nat)
    requires c' >= c && c' + o' >= c + o && o' <= o
    ensures c' as real + o' as real * ErrorRate >= c as real + o as real * ErrorRate
  {
  }

  /** Of two memories of one length, the one with the larger weighted count has the larger frequency. */
  lemma FrequencyOrdered(memory: seq<Obs>, after: seq<Obs>, key: string)
    requires |after| == |memory| && memory != []
    requires Matches(after, key) as real + Mismatches(after, key) as real * ErrorRate >=
      Matches(memory, key) as real + Mismatches(memory, key) as real * ErrorRate
    ensures Frequency(memory, key) <= Frequency(after, key)
  {
    DivideMonotone(Matches(memory, key) as real + Mismatches(memory, key) as real * ErrorRate,
      Matches(after, key) as real + Mismatches(after, key) as real * ErrorRate, |memory| as real);
  }

  /** The loop of `get_frequency` (python/agent.py:16-27). */
  method GetFrequency(memory: seq<Obs>, key: string) returns (f: real)
    requires |memory| <= MemoryLength
    ensures f == Frequency(memory, key)
  {
    if |memory| == 0 {
      return 0.0;
    }
    var count, other := 0, 0;
    var i := 0;
    while i < |memory|
      invariant 0 <= i <= |memory|
      invariant count == Matches(memory[..i], key)
      invariant other == Mismatches(memory[..i], key)
    {
      assert memory[..i + 1][..i] == memory[..i];
      if memory[i] == Saw(key) {
        count := count + 1;
      } else if memory[i] != NoFruit {
        other := other + 1;
      }
      i := i + 1;
    }
    assert memory[..i] == memory;
    f := (count as real + other as real * ErrorRate) / |memory| as real;
  }

  /** The pick-up rate `(k+ / (k+ + f))^2`: in (0, 1], exactly 1 at frequency 0. */
  function CarryRate(f: real): (p: real)
    requires f >= 0.0
    ensures 0.0 < p <= 1.0
    ensures f == 0.0 ==> p == 1.0
    ensures f > 0.0 ==> p < 1.0
  {
    var q := KPlus / (KPlus + f);
    assert 0.0 < q <= 1.0;
    assert f > 0.0 ==> q < 1.0;
    Product(q, q)
  }

  /** The release rate `(f / (k- + f))^2`: in [0, 1), exactly 0 at frequency 0. */
  function ReleaseRate(f: real): (p: real)
    requires f >= 0.0
    ensures 0.0 <= p < 1.0
    ensures f == 0.0 ==> p == 0.0
    ensures f > 0.0 ==> p > 0.0
  {
    var q := f / (KMinus + f);
    assert 0.0 <= q < 1.0;
    assert f > 0.0 ==> q > 0.0;
    Product(q, q)
  }

  /** A higher frequency never raises the pick-up rate. */
  lemma CarryRateFalls(f1: real, f2: real)
    requires 0.0 <= f1 <= f2
    ensures CarryRate(f2) <= CarryRate(f1)
  {
    var q1, q2 := KPlus / (KPlus + f1), KPlus / (KPlus + f2);
    assert q2 * (KPlus + f2) == KPlus == q1 * (KPlus + f1);
    assert q2 <= q1;
    SquareMonotone(q2, q1);
  }

  /** A higher frequency never lowers the release rate. */
  lemma ReleaseRateRises(f1: real, f2: real)
    requires 0.0 <= f1 <= f2
    ensures ReleaseRate(f1) <= ReleaseRate(f2)
  {
    var q1, q2 := f1 / (KMinus + f1), f2 / (KMinus + f2);
    assert q1 == 1.0 - KMinus / (KMinus + f1);
    assert q2 == 1.0 - KMinus / (KMinus + f2);
    assert KMinus / (KMinus + f2) <= KMinus / (KMinus + f1) by {
      var a, b := KMinus / (KMinus + f1), KMinus / (KMinus + f2);
      assert b * (KMinus + f2) == KMinus == a * (KMinus + f1);
    }
    SquareMonotone(q1, q2);
  }

  /** `will_carry(key)` given the uniform draw it compares against. */
  predicate WillCarry(memory: seq<Obs>, key: string, draw: real)
  {
    draw < CarryRate(Frequency(memory, key))
  }

  /** `will_release()` for a carried fruit with key `key`, given its draw. */
  predicate WillRelease(memory: seq<Obs>, key: string, draw: real)
  {
    draw < ReleaseRate(Frequency(memory, key))
  }

  /** `will_carry` (python/agent.py:29-31): compare the draw with the pick-up rate of the key. */
  method DecideCarry(memory: seq<Obs>, key: string, draw: real) returns (b: bool)
    requires |memory| <= MemoryLength
    ensures b <==> WillCarry(memory, key, draw)
  {
    var f := GetFrequency(memory, key);
    b := draw < CarryRate(f);
  }

  /** `will_release` (python/agent.py:33-35) for a carried fruit with key `key`. */
  method DecideRelease(memory: seq<Obs>, key: string, draw: real) returns (b: bool)
    requires |memory| <= MemoryLength
    ensures b <==> WillRelease(memory, key, draw)
  {
    var f := GetFrequency(memory, key);
    b := draw < ReleaseRate(f);
  }

  /** With nothing remembered every draw in [0, 1) picks up and none releases. */
  lemma EmptyMemoryDecisions(key: string, draw: real)
    requires 0.0 <= draw < 1.0
    ensures WillCarry([], key, draw)
    ensures !WillRelease([], key, draw)
  {
  }

  /**
   * The memory update of `act` (python/agent.py:44-47): the oldest entries
   * are dropped while the memory is full, then the observation is appended.
   */
  function Remember(memory: seq<Obs>, o: Obs): (r: seq<Obs>)
    ensures 0 < |r| <= MemoryLength
    ensures r[|r| - 1] == o
    ensures |r| - 1 <= |memory| && r[..|r| - 1] == memory[|memory| - (|r| - 1)..]
    ensures |memory| < MemoryLength ==> |r| == |memory| + 1
    ensures |memory| >= MemoryLength ==> |r| == MemoryLength
  {
    var kept := if |memory| >= MemoryLength then memory[|memory| - (MemoryLength - 1)..] else memory;
    assert (kept + [o])[..|kept|] == kept;
    kept + [o]
  }

  /** The pop-then-append loop of python/agent.py:44-47. */
  method UpdateMemory(memory: seq<Obs>, o: Obs) returns (r: seq<Obs>)
    ensures r == Remember(memory, o)
  {
    r := memory;
    ghost var k := 0;
    while |r| >= MemoryLength
      invariant 0 <= k <= |memory| && r == memory[k..]
      invariant |memory| >= MemoryLength ==> k <= |memory| - (MemoryLength - 1)
      invariant |memory| < MemoryLength ==> k == 0
      decreases |r|
    {
      r := r[1..];
      k := k + 1;
    }
    r := r + [o];
  }

  /** The last `k` entries of `s` (all of `s` if it is shorter). */
  function Last<T>(s: seq<T>, k: nat): (r: seq<T>)
    ensures |r| == if |s| <= k then |s| else k
    ensures r == s[|s| - |r|..]
  {
    if |s| <= k then s else s[|s| - k..]
  }

  /**
   * Memory after a run of observations, one `act` each: it never outgrows
   * the window and ends with the latest observation.
   */
  function RememberAll(memory: seq<Obs>, os: seq<Obs>): (r: seq<Obs>)
    ensures |memory| <= MemoryLength ==> |r| <= MemoryLength
    ensures os != [] ==> |r| > 0 && r[|r| - 1] == os[|os| - 1]
    decreases |os|
  {
    if os == [] then memory else RememberAll(Remember(memory, os[0]), os[1..])
  }

  /**
   * The memory is a FIFO window: after any run of observations exactly the
   * `MemoryLength` most recent entries remain, oldest first.
   */
  lemma {:induction false} MemoryKeepsMostRecent(memory: seq<Obs>, os: seq<Obs>)
    requires |memory| <= MemoryLength
    ensures RememberAll(memory, os) == Last(memory + os, MemoryLength)
    decreases |os|
  {
    if os == [] {
      assert memory + os == memory;
    } else {
      var o, rest := os[0], os[1..];
      assert RememberAll(memory, os) == RememberAll(Remember(memory, o), rest);
      RememberIsLast(memory, o);
      var next := Last(memory + [o], MemoryLength);
      MemoryKeepsMostRecent(next, rest);
      LastOfLast(memory + [o], rest, MemoryLength);
      SplitFirst(memory, os);
    }
  }

  /** One update keeps the last `MemoryLength` entries of memory plus observation. */
  lemma RememberIsLast(memory: seq<Obs>, o: Obs)
    requires |memory| <= MemoryLength
    ensures Remember(memory, o) == Last(memory + [o], MemoryLength)
  {
    if |memory| == MemoryLength {
      assert (memory + [o])[1..] == memory[1..] + [o];
    }
  }

  lemma SplitFirst<T>(s: seq<T>, t: seq<T>)
    requires t != []
    ensures s + [t[0]] + t[1..] == s + t
  {
    assert t == [t[0]] + t[1..];
  }

  lemma LastOfLast<T>(s: seq<T>, t: seq<T>, k: nat)
    ensures Last(Last(s, k) + t, k) == Last(s + t, k)
  {
    if |s| > k {
      var d := |s| - k;
      assert Last(s, k) + t == (s + t)[d..];
    }
  }
}
