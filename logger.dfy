/**
 * The logger implementation: an indentation counter that never goes below zero,
 * the prefix string derived from it, and a guard that drops messages while no
 * output logger is held. The sink itself is modelled as the list of emitted lines.
 */
module Logger {

  /** The indentation after adding `n` to `cur`: clamped at zero from below. */
  function NextIndentation(cur: int, n: int): (k: int)
    ensures k >= 0
    ensures k >= cur + n
    ensures cur + n > 0 ==> k == cur + n
  {
    if cur + n > 0 then cur + n else 0
  }

  /** The prefix for indentation `k`: 2k dots then one space, or nothing when `k <= 0`. */
  function Prefix(k: int): (p: string)
    ensures k <= 0 ==> p == ""
    ensures k > 0 ==> |p| == 2 * k + 1 && p[2 * k] == ' '
    ensures k > 0 ==> forall i :: 0 <= i < 2 * k ==> p[i] == '.'
  {
    if k <= 0 then "" else Dots(2 * k) + " "
  }

  /** `n` dots. */
  function Dots(n: nat): (d: string)
    ensures |d| == n && forall i :: 0 <= i < n ==> d[i] == '.'
  {
    if n == 0 then "" else Dots(n - 1) + "."
  }

  /** A line handed to the output logger. */
  datatype Line = Line(level: int, text: string)

  class Impl {
    var indentation: int
    var indentationString: string
    /** Whether an output logger is held (stdoutLogger_ non-null). */
    var active: bool
    /** Lines delivered to the output logger, oldest first. */
    var emitted: seq<Line>

    ghost predicate Valid()
      reads this
    {
      indentation >= 0 && indentationString == Prefix(indentation)
    }

    constructor ()
      ensures Valid() && indentation == 0 && !active && emitted == []
    {
      indentation := 0;
      indentationString := "";
      active := false;
      emitted := [];
    }

    /** init: a held logger is shut down first, then a new one is held. */
    method Init()
      modifies this`active
      ensures active
    {
      if active {
        Shutdown();
      }
      active := true;
    }

    method Shutdown()
      modifies this`active
      ensures !active
    {
      active := false;
    }

    /** log: the prefixed message reaches the output logger only while one is held. */
    method Log(level: int, message: string)
      modifies this`emitted
      ensures !active ==> emitted == old(emitted)
      ensures active ==> emitted == old(emitted) + [Line(level, indentationString + message)]
    {
      if !active {
        return;
      }
      emitted := emitted + [Line(level, indentationString + message)];
    }

    /** updateIndentation: add `n`; a result that is not positive clamps to 0 with an empty prefix. */
    method UpdateIndentation(n: int)
      requires Valid()
      modifies this`indentation, this`indentationString
      ensures Valid()
      ensures indentation == NextIndentation(old(indentation), n) && indentationString == Prefix(indentation)
      ensures old(indentation) + n > 0 ==> indentation == old(indentation) + n
      ensures old(indentation) + n <= 0 ==> indentation == 0 && indentationString == ""
    {
      indentation := indentation + n;
      if indentation > 0 {
        indentationString := Dots(2 * indentation) + " ";
      } else {
        indentation := 0;
        indentationString := "";
      }
    }
  }

  /** The indentation after a sequence of updates starting from `k`. */
  function Indent(k: int, ns: seq<int>): int
    decreases |ns|
  {
    if ns == [] then k else Indent(NextIndentation(k, ns[0]), ns[1..])
  }

  function Sum(ns: seq<int>): int
    decreases |ns|
  {
    if ns == [] then 0 else ns[0] + Sum(ns[1..])
  }

  /** Clamping only ever raises the counter: the result is at least the plain sum. */
  lemma {:induction false} IndentAtLeastSum(k: int, ns: seq<int>)
    ensures Indent(k, ns) >= k + Sum(ns)
    ensures ns != [] ==> Indent(k, ns) >= 0
    decreases |ns|
  {
    if ns != [] {
      IndentAtLeastSum(NextIndentation(k, ns[0]), ns[1..]);
    }
  }

  /** A scoped indenter (+n on entry, -n on exit) restores a non-negative counter. */
  lemma IndentScopeRestores(k: int, n: int)
    requires k >= 0 && n >= 0
    ensures Indent(k, [n, -n]) == k
  {
    assert [n, -n][1..] == [-n];
    assert [-n][1..] == [];
    assert Indent(k, [n, -n]) == Indent(NextIndentation(k, n), [-n]);
    assert Indent(NextIndentation(k, n), [-n]) == NextIndentation(NextIndentation(k, n), -n);
  }

  /** Scenario: reaching indentation 2 gives the prefix "....", and messages are prefixed. */
  method IndentedLogScenario()
  {
    var l := new Impl();
    l.Log(0, "dropped");
    assert l.emitted == [];
    l.Init();
    l.UpdateIndentation(2);
    assert l.indentationString == Prefix(2);
    l.Log(1, "msg");
    assert l.emitted == [Line(1, Prefix(2) + "msg")];
    l.UpdateIndentation(-5);
    assert l.indentation == 0 && l.indentationString == "";
  }
}
