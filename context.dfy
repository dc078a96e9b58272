/**
 * The workflow context shared by the steps of one run: a store with the two
 * keys the steps use, `clear_history` and `query_clean`. Reading a key that
 * was never set fails.
 */
module WorkflowContext {
  import opened Wrappers
  import opened Events

  class Context {
    var clearHistory: Option<History>
    var queryClean: Option<string>

    /** A fresh context holds no keys. */
    constructor()
      ensures clearHistory == None && queryClean == None
    {
      clearHistory := None;
      queryClean := None;
    }

    /** `ctx.set("clear_history", h)` */
    method SetClearHistory(h: History)
      modifies this
      ensures clearHistory == Some(h)
      ensures queryClean == old(queryClean)
    {
      clearHistory := Some(h);
    }

    /** `ctx.set("query_clean", q)` */
    method SetQueryClean(q: string)
      modifies this
      ensures queryClean == Some(q)
      ensures clearHistory == old(clearHistory)
    {
      queryClean := Some(q);
    }

    /** `ctx.get("clear_history")`: the stored value, or a failure when the key is missing. */
    method GetClearHistory() returns (r: Result<History>)
      ensures clearHistory.Some? ==> r == Success(clearHistory.value)
      ensures clearHistory.None? ==> r == Failure(MissingContextKey("clear_history"))
    {
      if clearHistory.Some? {
        r := Success(clearHistory.value);
      } else {
        r := Failure(MissingContextKey("clear_history"));
      }
    }

    /** `ctx.get("query_clean")` */
    method GetQueryClean() returns (r: Result<string>)
      ensures queryClean.Some? ==> r == Success(queryClean.value)
      ensures queryClean.None? ==> r == Failure(MissingContextKey("query_clean"))
    {
      if queryClean.Some? {
        r := Success(queryClean.value);
      } else {
        r := Failure(MissingContextKey("query_clean"));
      }
    }
  }
}
