/** The shape shared by every use case: an ordered chain of guards, each with a
    fixed user-facing message, in front of one repository call. */
module Guards {
  import opened Results

  /** One `if`/`when` arm of a use case: whether its condition holds, and the error it returns. */
  datatype Guard = Guard(fails: bool, message: string)

  /** What a use case decides before any I/O: return a fixed error, or call the
      repository with exactly these arguments. */
  datatype Verdict<+A> = Rejected(message: string) | Delegated(args: A)

  /** Guard `i` fires and no earlier guard does. */
  predicate FirstFailing(guards: seq<Guard>, i: int) {
    && 0 <= i < |guards|
    && guards[i].fails
    && forall j :: 0 <= j < i ==> !guards[j].fails
  }

  /** The reference reading of a guard chain: the first guard that fires decides
      the message; the repository is reached only if none fires. */
  function Evaluate<A>(guards: seq<Guard>, args: A): (v: Verdict<A>)
    ensures v.Delegated? <==> forall i :: 0 <= i < |guards| ==> !guards[i].fails
    ensures v.Delegated? ==> v.args == args
    ensures v.Rejected? ==> exists i :: FirstFailing(guards, i) && guards[i].message == v.message
    decreases |guards|
  {
    if guards == [] then Delegated(args)
    else if guards[0].fails then
      assert FirstFailing(guards, 0);
      Rejected(guards[0].message)
    else
      var rest := Evaluate(guards[1..], args);
      assert forall i :: FirstFailing(guards[1..], i) ==> FirstFailing(guards, i + 1);
      rest
  }

  /** One step of the chain: the head guard fires, or the rest decides. */
  lemma EvaluateStep<A>(guards: seq<Guard>, args: A)
    requires guards != []
    ensures Evaluate(guards, args)
         == if guards[0].fails then Rejected(guards[0].message) else Evaluate(guards[1..], args)
  {
  }

  /** The use case as the app calls it: a rejected verdict becomes `Result.Error`
      and the repository is never consulted; a delegated one returns the
      repository's reply unchanged. */
  function Run<A, T>(v: Verdict<A>, repository: A -> Result<T>): (r: Result<T>)
    ensures v.Rejected? ==> r == Error(v.message)
    ensures v.Delegated? ==> r == repository(v.args)
  {
    match v
    case Rejected(m) => Error(m)
    case Delegated(args) => repository(args)
  }
}
