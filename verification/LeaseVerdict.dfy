/** How runLease turns the results of its workers into one error. */
module LeaseVerdict {
  import opened Options
  import opened RelayErrors

  /** A worker result; None is nil. */
  type WorkerResult = Option<Err>

  predicate IsTerminalResult(r: WorkerResult) { r.Some? && Has(r.value, IsTerminal) }

  predicate IsRefreshResult(r: WorkerResult) { r.Some? && Has(r.value, IsRefresh) }

  predicate IsTransientResult(r: WorkerResult) {
    r.Some? && !Has(r.value, IsTerminal) && !Has(r.value, IsRefresh) && !Has(r.value, IsCanceled)
  }

  /** The class of the verdict, from which results occur and not from their order. */
  datatype Verdict = TerminalVerdict | RefreshVerdict | TransientVerdict | CanceledVerdict

  ghost function VerdictOf(results: seq<WorkerResult>): Verdict {
    if exists r | r in results :: IsTerminalResult(r) then TerminalVerdict
    else if exists r | r in results :: IsRefreshResult(r) then RefreshVerdict
    else if exists r | r in results :: IsTransientResult(r) then TransientVerdict
    else CanceledVerdict
  }

  /** err is what runLease returns for these results, taken in the order in which they arrived. */
  ghost predicate Joins(results: seq<WorkerResult>, err: Err) {
    match VerdictOf(results)
    case TerminalVerdict =>
      exists i | 0 <= i < |results| ::
        results[i] == Some(err) && Has(err, IsTerminal) && forall j | 0 <= j < i :: !IsTerminalResult(results[j])
    case RefreshVerdict => err == LeaseRefresh
    case TransientVerdict =>
      exists i | 0 <= i < |results| ::
        results[i] == Some(err) && IsTransientResult(results[i]) && forall j | 0 <= j < i :: !IsTransientResult(results[j])
    case CanceledVerdict => err == Canceled
  }

  method JoinResults(results: seq<WorkerResult>) returns (err: Err)
    ensures Joins(results, err)
  {
    var transient: WorkerResult := None;
    var refresh := false;
    for i := 0 to |results|
      invariant forall r | r in results[..i] :: !IsTerminalResult(r)
      invariant refresh <==> exists r | r in results[..i] :: IsRefreshResult(r)
      invariant transient.None? ==> forall r | r in results[..i] :: !IsTransientResult(r)
      invariant transient.Some? ==>
                  exists k | 0 <= k < i :: results[k] == transient && IsTransientResult(results[k])
                                        && forall j | 0 <= j < k :: !IsTransientResult(results[j])
    {
      var result := results[i];
      assert results[..i + 1] == results[..i] + [result];
      assert result in results[..i + 1];
      if IsTerminalResult(result) {
        assert forall j | 0 <= j < i :: results[j] in results[..i];
        return result.value;
      }
      if IsRefreshResult(result) {
        refresh := true;
      } else if result.Some? && !Has(result.value, IsCanceled) && transient.None? {
        assert forall j | 0 <= j < i :: results[j] in results[..i];
        transient := result;
      }
    }
    assert results[..|results|] == results;
    if refresh {
      return LeaseRefresh;
    }
    if transient.Some? {
      return transient.value;
    }
    return Canceled;
  }

  /** Terminal beats refresh beats everything else, in whatever order the workers finish. */
  lemma OrderDoesNotMatter(a: seq<WorkerResult>, b: seq<WorkerResult>)
    requires multiset(a) == multiset(b)
    ensures VerdictOf(a) == VerdictOf(b)
  {
    forall r ensures r in a <==> r in b {
      assert r in a <==> r in multiset(a);
    }
  }

  /** The class of the joined error is the verdict. */
  lemma JoinedClass(results: seq<WorkerResult>, err: Err)
    requires Joins(results, err)
    ensures VerdictOf(results) == TerminalVerdict ==> ClassOf(Some(err)) == Terminal
    ensures VerdictOf(results) == RefreshVerdict ==> ClassOf(Some(err)) == Refresh
    ensures VerdictOf(results).TransientVerdict? || VerdictOf(results).CanceledVerdict? ==> ClassOf(Some(err)) == Retryable
  {
  }
}
