/**
 * The short-term memory of the reflection agent (chapter7/my_reflection_agent.py:5-49):
 * an append-only list of typed records, rendered to a trajectory text and searched
 * for the most recent execution.
 */
module AgentMemory {
  import opened Wrappers
  import opened Text

  /** One record: its type (`execution`, `reflection` or anything else) and its content. */
  datatype Record = Record(kind: string, content: string)

  const ExecutionHeader: string := "--- 上一轮尝试 (代码) ---\n"
  const ReflectionHeader: string := "--- 评审员反馈 ---\n"

  /** The trajectory part of one record: none for a record of another type. */
  function Part(r: Record): seq<string> {
    if r.kind == "execution" then [ExecutionHeader + r.content]
    else if r.kind == "reflection" then [ReflectionHeader + r.content]
    else []
  }

  /** The trajectory parts of the records, in insertion order. */
  function Parts(records: seq<Record>): seq<string>
    decreases |records|
  {
    if records == [] then []
    else Parts(records[..|records| - 1]) + Part(records[|records| - 1])
  }

  /** `get_trajectory`'s result: the parts joined by blank lines. */
  function Trajectory(records: seq<Record>): string {
    Join(Parts(records), "\n\n")
  }

  /** `get_last_execution`'s result: the content of the latest execution record. */
  function LastExecution(records: seq<Record>): Option<string>
    decreases |records|
  {
    if records == [] then None
    else if records[|records| - 1].kind == "execution" then Some(records[|records| - 1].content)
    else LastExecution(records[..|records| - 1])
  }

  /** Rendering the records of two lists one after the other. */
  lemma {:induction false} PartsConcat(a: seq<Record>, b: seq<Record>)
    ensures Parts(a + b) == Parts(a) + Parts(b)
    decreases |b|
  {
    if b == [] {
      assert a + b == a;
    } else {
      var init := b[..|b| - 1];
      assert (a + b)[..|a + b| - 1] == a + init;
      PartsConcat(a, init);
    }
  }

  /**
   * Each execution and each reflection record gives one part, with its header, in
   * the order of the records; records of any other type give none.
   */
  lemma {:induction false} PartsInOrder(records: seq<Record>)
    requires forall i :: 0 <= i < |records| ==> records[i].kind in {"execution", "reflection"}
    ensures |Parts(records)| == |records|
    ensures forall i :: 0 <= i < |records| ==>
      Parts(records)[i] == (if records[i].kind == "execution" then ExecutionHeader else ReflectionHeader) + records[i].content
    decreases |records|
  {
    if records != [] {
      var init := records[..|records| - 1];
      forall i | 0 <= i < |init| ensures init[i].kind in {"execution", "reflection"} {
        assert init[i] == records[i];
      }
      PartsInOrder(init);
    }
  }

  /** A record of another type leaves the trajectory as it is, wherever it stands. */
  lemma {:induction false} OtherRecordSkipped(a: seq<Record>, r: Record, b: seq<Record>)
    requires r.kind != "execution" && r.kind != "reflection"
    ensures Trajectory(a + [r] + b) == Trajectory(a + b)
  {
    PartsConcat(a + [r], b);
    PartsConcat(a, [r]);
    PartsConcat(a, b);
    assert [r][..0] == [];
    assert Parts([r]) == [];
    assert Parts(a + [r]) == Parts(a);
  }

  /** A record added at the end extends the trajectory with its part, after a blank line. */
  lemma {:induction false} TrajectorySnoc(records: seq<Record>, r: Record)
    requires r.kind in {"execution", "reflection"}
    ensures Trajectory(records + [r]) ==
      if Parts(records) == [] then Part(r)[0] else Trajectory(records) + "\n\n" + Part(r)[0]
  {
    assert (records + [r])[..|records|] == records;
    JoinSnoc(Parts(records), Part(r)[0], "\n\n");
  }

  /** There is no latest execution exactly when no record is an execution. */
  lemma {:induction false} NoLastExecution(records: seq<Record>)
    ensures LastExecution(records).None? <==> forall i :: 0 <= i < |records| ==> records[i].kind != "execution"
    decreases |records|
  {
    if records != [] {
      var n := |records| - 1;
      var init := records[..n];
      NoLastExecution(init);
      assert forall i :: 0 <= i < n ==> records[i] == init[i];
    }
  }

  /** The latest execution is the content of an execution record with no execution after it. */
  lemma {:induction false} LastExecutionAt(records: seq<Record>) returns (i: nat)
    requires LastExecution(records).Some?
    ensures i < |records| && records[i] == Record("execution", LastExecution(records).value)
    ensures forall j :: i < j < |records| ==> records[j].kind != "execution"
    decreases |records|
  {
    var n := |records| - 1;
    if records[n].kind == "execution" {
      i := n;
    } else {
      var init := records[..n];
      i := LastExecutionAt(init);
      assert records[i] == init[i];
      assert forall j :: i < j < n ==> records[j] == init[j];
    }
  }

  /** Records added after an execution that are not executions do not change the answer. */
  lemma {:induction false} LastExecutionAfter(records: seq<Record>, later: seq<Record>)
    requires forall j :: 0 <= j < |later| ==> later[j].kind != "execution"
    ensures LastExecution(records + later) == LastExecution(records)
    decreases |later|
  {
    if later == [] {
      assert records + later == records;
    } else {
      var init := later[..|later| - 1];
      assert (records + later)[..|records + later| - 1] == records + init;
      assert (records + later)[|records + later| - 1] == later[|later| - 1];
      LastExecutionAfter(records, init);
    }
  }

  class Memory {
    var records: seq<Record>

    constructor ()
      ensures records == []
    {
      records := [];
    }

    /** `add_record`: one record at the end, the earlier ones untouched. */
    method AddRecord(kind: string, content: string)
      modifies this
      ensures records == old(records) + [Record(kind, content)]
    {
      records := records + [Record(kind, content)];
    }

    /** `get_trajectory`: collect the parts record by record, then join them. */
    method GetTrajectory() returns (r: string)
      ensures r == Trajectory(records)
    {
      var parts: seq<string> := [];
      for i := 0 to |records|
        invariant parts == Parts(records[..i])
      {
        assert records[..i + 1][..i] == records[..i];
        var record := records[i];
        if record.kind == "execution" {
          parts := parts + [ExecutionHeader + record.content];
        } else if record.kind == "reflection" {
          parts := parts + [ReflectionHeader + record.content];
        }
      }
      assert records[..|records|] == records;
      r := Join(parts, "\n\n");
    }

    /** `get_last_execution`: scan the records from the newest to the oldest. */
    method GetLastExecution() returns (r: Option<string>)
      ensures r == LastExecution(records)
    {
      var i := |records|;
      assert records[..i] == records;
      while i > 0
        invariant 0 <= i <= |records|
        invariant LastExecution(records) == LastExecution(records[..i])
      {
        assert records[..i][..i - 1] == records[..i - 1];
        if records[i - 1].kind == "execution" {
          return Some(records[i - 1].content);
        }
        i := i - 1;
      }
      return None;
    }
  }
}
