/** The in-memory status store: submission id to its lifecycle status. */
module Store {

  datatype SubmissionStatus = Queued | Running | Passed | Failed | Errored

  /** A lookup result; `None` stands for `undefined`. */
  datatype Option<T> = None | Some(value: T)

  /** One call of setSubmissionStatus. */
  datatype StatusWrite = StatusWrite(submissionId: string, status: SubmissionStatus)

  function Last<T>(s: seq<T>): T
    requires s != []
  {
    s[|s| - 1]
  }

  /** The writes of `statuses` to one id, in order. */
  function WritesFor(submissionId: string, statuses: seq<SubmissionStatus>): (writes: seq<StatusWrite>)
    ensures |writes| == |statuses|
  {
    if statuses == [] then []
    else [StatusWrite(submissionId, statuses[0])] + WritesFor(submissionId, statuses[1..])
  }

  /** The map that replaying `log` from an empty map produces: each id holds its latest write. */
  ghost function Replay(log: seq<StatusWrite>): map<string, SubmissionStatus>
  {
    if log == [] then map[]
    else Replay(log[..|log| - 1])[Last(log).submissionId := Last(log).status]
  }

  /** An id is in the replayed map iff some write names it, and then it holds that id's latest write. */
  lemma {:induction false} ReplayHoldsLatestWrite(log: seq<StatusWrite>, id: string)
    ensures id in Replay(log) <==> exists i :: 0 <= i < |log| && log[i].submissionId == id
    ensures forall i ::
              (0 <= i < |log| && log[i].submissionId == id && forall j :: i < j < |log| ==> log[j].submissionId != id)
              ==> id in Replay(log) && Replay(log)[id] == log[i].status
    decreases |log|
  {
    if log != [] {
      var prefix := log[..|log| - 1];
      ReplayHoldsLatestWrite(prefix, id);
      assert forall i :: 0 <= i < |prefix| ==> prefix[i] == log[i];
    }
  }

  lemma {:induction false} WritesForAppend(submissionId: string, first: seq<SubmissionStatus>, second: seq<SubmissionStatus>)
    ensures WritesFor(submissionId, first + second) == WritesFor(submissionId, first) + WritesFor(submissionId, second)
    decreases |first|
  {
    if first != [] {
      assert (first + second)[0] == first[0];
      assert (first + second)[1..] == first[1..] + second;
      WritesForAppend(submissionId, first[1..], second);
    } else {
      assert first + second == second;
    }
  }

  class SubmissionStore {
    var submissions: map<string, SubmissionStatus>

    // every write made to the store, oldest first
    ghost var log: seq<StatusWrite>

    /** The map is exactly what the writes in the log, replayed in order, produce. */
    ghost predicate Valid()
      reads this
    {
      submissions == Replay(log)
    }

    constructor ()
      ensures Valid()
      ensures submissions == map[] && log == []
      ensures forall id :: GetSubmissionStatus(id) == None
    {
      submissions := map[];
      log := [];
    }

    /** Unconditional overwrite: nothing stops a terminal status from being replaced. */
    method SetSubmissionStatus(submissionId: string, status: SubmissionStatus)
      requires Valid()
      modifies this
      ensures Valid()
      ensures submissions == old(submissions)[submissionId := status]
      ensures log == old(log) + [StatusWrite(submissionId, status)]
      ensures GetSubmissionStatus(submissionId) == Some(status)
      ensures forall id :: id != submissionId ==> GetSubmissionStatus(id) == old(GetSubmissionStatus(id))
    {
      submissions := submissions[submissionId := status];
      log := log + [StatusWrite(submissionId, status)];
      assert log[..|log| - 1] == old(log);
    }

    /** The status stored for `submissionId`, or `None` (undefined) for an id never set. */
    function GetSubmissionStatus(submissionId: string): (status: Option<SubmissionStatus>)
      reads this
      ensures status.None? <==> submissionId !in submissions
      ensures status.Some? ==> status.value == submissions[submissionId]
    {
      if submissionId in submissions then Some(submissions[submissionId]) else None
    }

    /**
     * In a valid store, an id yields `None` exactly when it was never set, and
     * otherwise the status of its latest write.
     */
    lemma ReadsLatestWrite(submissionId: string)
      requires Valid()
      ensures GetSubmissionStatus(submissionId).None? <==> forall i :: 0 <= i < |log| ==> log[i].submissionId != submissionId
      ensures forall i ::
                (0 <= i < |log| && log[i].submissionId == submissionId
                 && forall j :: i < j < |log| ==> log[j].submissionId != submissionId)
                ==> GetSubmissionStatus(submissionId) == Some(log[i].status)
    {
      ReplayHoldsLatestWrite(log, submissionId);
    }
  }
}
