/** The `PrintQueue` admin page: the pending print jobs, the selected job, the print
    flow and the status buttons that take a job off the queue. Server replies, the
    operator's answers to the confirmation dialogs and the outcome of the browser's
    print dialog are parameters; the delay before the confirmation is immediate. */
module PrintQueue {
  import opened Types
  import opened Text
  import opened Seqs

  const FETCH_FAILED := "Failed to fetch print jobs. Please try again."
  const UPDATE_FAILED := "Failed to update job status."
  const PRINT_FAILED := "Failed to print document."

  /** The test `job => job.order_number !== orderNumber`. */
  function KeepOthers(orderNumber: string): Order -> bool {
    (job: Order) => job.orderNumber != orderNumber
  }

  /** The queue after a job's status was changed: the jobs with that order number
      leave, every other job stays as often as it was there, and no job with that
      number remains. */
  function RemoveJobs(jobs: seq<Order>, orderNumber: string): (r: seq<Order>)
    ensures forall job :: multiset(r)[job] == if job.orderNumber != orderNumber then multiset(jobs)[job] else 0
    ensures forall i :: 0 <= i < |r| ==> r[i].orderNumber != orderNumber
  {
    FilterCounts(jobs, KeepOthers(orderNumber));
    var r := Filter(jobs, KeepOthers(orderNumber));
    forall i | 0 <= i < |r| ensures r[i].orderNumber != orderNumber {
      assert r[i] in multiset(r);
    }
    r
  }

  /** Removal keeps the remaining jobs in their order: it acts on each part of a queue
      separately, a single job either stays or goes, and a queue without that number is
      left as it is. */
  lemma RemoveJobsKeepsOrder(a: seq<Order>, b: seq<Order>, job: Order, orderNumber: string)
    ensures RemoveJobs(a + b, orderNumber) == RemoveJobs(a, orderNumber) + RemoveJobs(b, orderNumber)
    ensures RemoveJobs([job], orderNumber) == if job.orderNumber == orderNumber then [] else [job]
    ensures (forall i :: 0 <= i < |a| ==> a[i].orderNumber != orderNumber) ==> RemoveJobs(a, orderNumber) == a
  {
    assert RemoveJobs(a + b, orderNumber) == RemoveJobs(a, orderNumber) + RemoveJobs(b, orderNumber) by {
      FilterAppend(a, b, KeepOthers(orderNumber));
    }
    assert RemoveJobs([job], orderNumber) == if job.orderNumber == orderNumber then [] else [job] by {
      assert [job][1..] == [];
    }
    if forall i :: 0 <= i < |a| ==> a[i].orderNumber != orderNumber {
      FilterAllPass(a, KeepOthers(orderNumber));
    }
  }

  /** "job" for exactly one waiting job, "jobs" otherwise. */
  function JobNoun(count: nat): (noun: string)
    ensures noun == "job" <==> count == 1
    ensures noun == "jobs" <==> count != 1
  {
    if count != 1 then "jobs" else "job"
  }

  /** The count line of the queue. */
  function JobCountLabel(count: nat): string {
    NatToDecimal(count) + " " + JobNoun(count) + " waiting to be printed"
  }

  /** The reply to the pending-jobs request. */
  datatype JobsReply = JobsFetched(jobs: seq<Order>) | JobsThrew

  /** The status update a button sends. */
  datatype StatusRequest = StatusRequest(orderNumber: string, status: OrderStatus)

  /** How the print attempt ends: the print dialog ran, printing threw inside the
      loaded frame, or setting up the frame threw. */
  datatype PrintOutcome = Printed | PrintThrew | SetupThrew

  /** The page's state. */
  class Queue {
    var printJobs: seq<Order>
    var loading: bool
    var error: Option<string>
    var selectedJob: Option<Order>
    var isPrinting: bool

    constructor ()
      ensures printJobs == [] && loading && error.None? && selectedJob.None? && !isPrinting
    {
      printJobs := [];
      loading := true;
      error := None;
      selectedJob := None;
      isPrinting := false;
    }

    /** `fetchPrintJobs`: a reply replaces the list wholesale; a failure records the
        error and keeps the list. Loading ends either way. */
    method FetchPrintJobs(reply: JobsReply)
      modifies this
      ensures reply.JobsFetched? ==> printJobs == reply.jobs && error == old(error)
      ensures reply.JobsThrew? ==> printJobs == old(printJobs) && error == Some(FETCH_FAILED)
      ensures !loading && selectedJob == old(selectedJob) && isPrinting == old(isPrinting)
    {
      loading := true;
      match reply {
        case JobsFetched(jobs) =>
          printJobs := jobs;
          loading := false;
        case JobsThrew =>
          error := Some(FETCH_FAILED);
          loading := false;
      }
    }

    /** Clicking a job in the list. */
    method SelectJob(job: Order)
      modifies this
      ensures selectedJob == Some(job)
      ensures printJobs == old(printJobs) && error == old(error) && isPrinting == old(isPrinting)
      ensures loading == old(loading)
    {
      selectedJob := Some(job);
    }

    /** `updateJobStatus`: once the server accepts, the jobs with that number leave the
        queue and nothing is selected; a refusal records the error and changes nothing
        else. */
    method UpdateJobStatus(request: StatusRequest, accepted: bool)
      modifies this
      ensures accepted ==>
                printJobs == RemoveJobs(old(printJobs), request.orderNumber) && selectedJob.None?
                && error == old(error)
      ensures !accepted ==>
                printJobs == old(printJobs) && selectedJob == old(selectedJob) && error == Some(UPDATE_FAILED)
      ensures loading == old(loading) && isPrinting == old(isPrinting)
    {
      if accepted {
        printJobs := RemoveJobs(printJobs, request.orderNumber);
        selectedJob := None;
      } else {
        error := Some(UPDATE_FAILED);
      }
    }

    /** A status button of the selected job ("Mark as Completed" sends `Completed`,
        "Mark as Failed" sends `Failed`): the update is sent only when the operator
        confirms, and a refused update records the update error. */
    method MarkSelected(status: OrderStatus, confirmed: bool, accepted: bool) returns (request: Option<StatusRequest>)
      requires selectedJob.Some?
      modifies this
      ensures request.Some? <==> confirmed
      ensures confirmed ==> request == Some(StatusRequest(old(selectedJob).value.orderNumber, status))
      ensures confirmed && accepted ==>
                printJobs == RemoveJobs(old(printJobs), old(selectedJob).value.orderNumber) && selectedJob.None?
      ensures !(confirmed && accepted) ==> printJobs == old(printJobs) && selectedJob == old(selectedJob)
      ensures !confirmed ==> error == old(error)
      ensures confirmed && accepted ==> error == old(error)
      ensures confirmed && !accepted ==> error == Some(UPDATE_FAILED)
      ensures loading == old(loading) && isPrinting == old(isPrinting)
    {
      if !confirmed {
        return None;
      }
      request := Some(StatusRequest(selectedJob.value.orderNumber, status));
      UpdateJobStatus(request.value, accepted);
    }

    /** `printDocument`: the flow shows that it is printing while it runs and stops
        showing it on every way out. After a print dialog the operator is asked whether
        the document printed; only a yes marks the job completed, and a refused update
        records the update error. */
    method PrintDocument(job: Order, outcome: PrintOutcome, confirmed: bool, accepted: bool)
      returns (request: Option<StatusRequest>)
      modifies this
      ensures !isPrinting
      ensures request.Some? <==> outcome == Printed && confirmed
      ensures request.Some? ==> request.value == StatusRequest(job.orderNumber, Completed)
      ensures request.Some? && accepted ==>
                printJobs == RemoveJobs(old(printJobs), job.orderNumber) && selectedJob.None?
      ensures !(request.Some? && accepted) ==> printJobs == old(printJobs) && selectedJob == old(selectedJob)
      ensures outcome == SetupThrew ==> error == Some(PRINT_FAILED)
      ensures outcome == PrintThrew || (outcome == Printed && !confirmed) ==> error == old(error)
      ensures request.Some? && accepted ==> error == old(error)
      ensures request.Some? && !accepted ==> error == Some(UPDATE_FAILED)
      ensures loading == old(loading)
    {
      isPrinting := true;
      request := None;
      match outcome {
        case Printed =>
          if confirmed {
            request := Some(StatusRequest(job.orderNumber, Completed));
            UpdateJobStatus(request.value, accepted);
          }
          isPrinting := false;
        case PrintThrew =>
          isPrinting := false;
        case SetupThrew =>
          error := Some(PRINT_FAILED);
          isPrinting := false;
      }
    }
  }
}
