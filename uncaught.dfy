/**
 * The uncaught-exceptions example: a Request remembers how many exceptions
 * were in flight when it was made, and its destructor commits or rolls back
 * depending on whether more are in flight when it is destroyed. The count
 * std::uncaught_exceptions() returns is passed in as a number.
 */
module Uncaught {
  import opened Streams

  function CommitLine(name: string): (line: string)
    ensures |line| == 15 + |name|
    ensures line[..15] == "  commit() for " && line[15..] == name
  {
    "  commit() for " + name
  }

  function RollbackLine(name: string): (line: string)
    ensures |line| == 17 + |name|
    ensures line[..17] == "  rollback() for " && line[17..] == name
  {
    "  rollback() for " + name
  }

  class Request {
    const name: string
    const initialExceptions: nat

    /** Request(n): the name, and the in-flight count at construction. */
    constructor (n: string, uncaughtNow: nat)
      ensures name == n && initialExceptions == uncaughtNow
    {
      name := n;
      initialExceptions := uncaughtNow;
    }

    method Commit(out: OutputStream)
      modifies out
      ensures out.lines == old(out.lines) + [CommitLine(name)]
    {
      out.WriteLine(CommitLine(name));
    }

    method Rollback(out: OutputStream)
      modifies out
      ensures out.lines == old(out.lines) + [RollbackLine(name)]
    {
      out.WriteLine(RollbackLine(name));
    }

    /**
     * ~Request(): exactly one of rollback and commit, and rollback exactly
     * when more exceptions are in flight than at construction (the object
     * is destroyed by stack unwinding).
     */
    method Destroy(uncaughtNow: nat, out: OutputStream) returns (rolledBack: bool)
      modifies out
      ensures rolledBack <==> uncaughtNow > initialExceptions
      ensures out.lines == old(out.lines) + [if rolledBack then RollbackLine(name) else CommitLine(name)]
    {
      rolledBack := uncaughtNow > initialExceptions;
      if rolledBack {
        Rollback(out);
      } else {
        Commit(out);
      }
    }
  }

  /**
   * main: r1 is made with nothing in flight and destroyed while the thrown
   * exception unwinds the try block; r2 lives inside the handler, where the
   * exception counts as caught.
   */
  method RequestScenario() returns (lines: seq<string>, r1RolledBack: bool, r2RolledBack: bool)
    ensures r1RolledBack && !r2RolledBack
    ensures lines == ["  rollback() for r1", "  commit() for r2"]
  {
    var out := new OutputStream();
    var inFlight := 0;
    var r1 := new Request("r1", inFlight);
    inFlight := inFlight + 1;    // throw std::out_of_range
    r1RolledBack := r1.Destroy(inFlight, out);
    inFlight := inFlight - 1;    // the handler catches it
    var r2 := new Request("r2", inFlight);
    r2RolledBack := r2.Destroy(inFlight, out);
    assert RollbackLine("r1") == "  rollback() for r1";
    assert CommitLine("r2") == "  commit() for r2";
    lines := out.lines;
  }
}
