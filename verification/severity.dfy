/** The five-level outcome scale and the rule by which a job's running
    (severity, message) pair is raised. */
module Severities {

  /** GOOD = 0 < OK = 1 < WARN = 2 < ERROR = 3 < SEVERE = 4. */
  datatype Severity = Good | Ok | Warn | Error | Severe

  /** The numeric value the program uses for a severity. */
  function Level(s: Severity): nat
  {
    match s
    case Good => 0
    case Ok => 1
    case Warn => 2
    case Error => 3
    case Severe => 4
  }

  /** The more severe of two severities. */
  function Max(a: Severity, b: Severity): (r: Severity)
    ensures Level(r) >= Level(a) && Level(r) >= Level(b)
    ensures r == a || r == b
  {
    if Level(b) > Level(a) then b else a
  }

  /** Combining severities is commutative, associative and idempotent, and
      GOOD is its neutral element. */
  lemma MaxLaws(a: Severity, b: Severity, c: Severity)
    ensures Max(a, b) == Max(b, a)
    ensures Max(Max(a, b), c) == Max(a, Max(b, c))
    ensures Max(a, a) == a && Max(Good, a) == a
  {
  }

  /** A running result: the worst severity seen so far and the message that
      came with it. */
  datatype Outcome = Outcome(severity: Severity, message: string)

  /** A job's result before anything went wrong. */
  const Start := Outcome(Good, "OK!")

  /** Raises the outcome to `s` with message `msg` when `s` is strictly more
      severe; otherwise keeps it, so on a tie the earlier message stays. */
  function Raise(o: Outcome, s: Severity, msg: string): (r: Outcome)
    ensures r.severity == Max(o.severity, s)
    ensures r == o || (Level(s) > Level(o.severity) && r.message == msg)
  {
    if Level(s) > Level(o.severity) then Outcome(s, msg) else o
  }

  /** `a` combined with every severity of `xs` in turn. */
  function MaxAll(a: Severity, xs: seq<Severity>): Severity
  {
    if xs == [] then a else Max(MaxAll(a, xs[..|xs| - 1]), xs[|xs| - 1])
  }

  /** The running maximum is at least `a` and every element, and it is `a`
      or one of the elements. */
  lemma {:induction false} MaxAllBounds(a: Severity, xs: seq<Severity>)
    ensures Level(MaxAll(a, xs)) >= Level(a)
    ensures forall k :: 0 <= k < |xs| ==> Level(MaxAll(a, xs)) >= Level(xs[k])
    ensures MaxAll(a, xs) == a || exists k :: 0 <= k < |xs| && MaxAll(a, xs) == xs[k]
  {
    if xs != [] {
      var init := xs[..|xs| - 1];
      MaxAllBounds(a, init);
      forall k | 0 <= k < |init|
        ensures init[k] == xs[k]
      {
      }
    }
  }
}
