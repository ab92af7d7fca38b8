/**
 * Properties of start()'s loop (EmulatorSpec.Run): what the session does
 * over a whole stream of tokens. Each step lemma unfolds Run once; the
 * inductions only chain the steps.
 */
module SessionProps {
  import opened Tokens
  import opened EmulatorSpec

  /** A token after the end leaves the machine as it is. */
  lemma RunAfterEnd(m: Machine, inputs: seq<Input>, k: nat)
    requires Valid(m) && 0 < k <= |inputs| && Run(m, inputs, k - 1).terminated
    ensures Run(m, inputs, k) == Run(m, inputs, k - 1)
  {
  }

  /** Once the session has ended, no further token is read. */
  lemma RunStopped(m: Machine, inputs: seq<Input>, i: nat, n: nat)
    requires Valid(m) && i <= n <= |inputs|
    requires Run(m, inputs, i).terminated
    ensures Run(m, inputs, n) == Run(m, inputs, i)
    decreases n
  {
    if n != i {
      RunStopped(m, inputs, i, n - 1);
      RunAfterEnd(m, inputs, n);
    }
  }

  /** An EOF or EOT token ends the session, if it had not ended before. */
  lemma EndOfStreamEnds(m: Machine, inputs: seq<Input>, i: nat)
    requires Valid(m) && i < |inputs| && (inputs[i].token == EOF || inputs[i].token == EOT)
    ensures Run(m, inputs, i + 1).terminated
  {
    var k := i + 1;
    assert k - 1 == i;
  }

  /** Equal prefixes of length n agree on the shorter prefix and on the last element. */
  lemma PrefixShrinks(s: seq<Input>, t: seq<Input>, n: nat)
    requires 0 < n <= |s| && n <= |t| && s[..n] == t[..n]
    ensures s[..n - 1] == t[..n - 1] && s[n - 1] == t[n - 1]
  {
    assert s[..n - 1] == s[..n][..n - 1];
    assert t[..n - 1] == t[..n][..n - 1];
    assert s[n - 1] == s[..n][n - 1];
    assert t[n - 1] == t[..n][n - 1];
  }

  /** Two streams that led to the same machine and go on with the same token lead to the same machine again. */
  lemma RunSameStep(m: Machine, s: seq<Input>, t: seq<Input>, n: nat)
    requires Valid(m) && 0 < n <= |s| && n <= |t| && s[n - 1] == t[n - 1]
    requires Run(m, s, n - 1) == Run(m, t, n - 1)
    ensures Run(m, s, n) == Run(m, t, n)
  {
  }

  /** The first n tokens decide the state after n tokens. */
  lemma RunReadsPrefix(m: Machine, s: seq<Input>, t: seq<Input>, n: nat)
    requires Valid(m) && n <= |s| && n <= |t| && s[..n] == t[..n]
    ensures Run(m, s, n) == Run(m, t, n)
  {
    if n != 0 {
      PrefixShrinks(s, t, n);
      RunReadsPrefix(m, s, t, n - 1);
      RunSameStep(m, s, t, n);
    }
  }

  /** The first |a| tokens of a + b are a. */
  lemma RunOfLeftPart(m: Machine, a: seq<Input>, b: seq<Input>)
    requires Valid(m)
    ensures Run(m, a + b, |a|) == Run(m, a, |a|)
  {
    assert (a + b)[..|a|] == a[..|a|];
    RunReadsPrefix(m, a + b, a, |a|);
  }

  /** One more token of b, read after a. */
  lemma AppendStep(m: Machine, a: seq<Input>, b: seq<Input>, k: nat)
    requires Valid(m) && 0 < k <= |b|
    requires Run(m, a + b, |a| + (k - 1)) == Run(Run(m, a, |a|), b, k - 1)
    ensures Run(m, a + b, |a| + k) == Run(Run(m, a, |a|), b, k)
  {
    var n := |a| + k;
    assert n - 1 == |a| + (k - 1);
    assert (a + b)[n - 1] == b[k - 1];
  }

  /** Reading a + b is reading a, then reading b from where a left off. */
  lemma RunAppend(m: Machine, a: seq<Input>, b: seq<Input>, k: nat)
    requires Valid(m) && k <= |b|
    ensures Run(m, a + b, |a| + k) == Run(Run(m, a, |a|), b, k)
  {
    if k == 0 {
      RunOfLeftPart(m, a, b);
    } else {
      RunAppend(m, a, b, k - 1);
      AppendStep(m, a, b, k);
    }
  }

  /** An ended session reads nothing at all. */
  lemma TerminatedRunsNothing(m: Machine, inputs: seq<Input>, n: nat)
    requires Valid(m) && m.terminated && n <= |inputs|
    ensures Run(m, inputs, n) == m
  {
    RunStopped(m, inputs, 0, n);
  }
}
