/** `PrintingContext`: the session state shared by the printing pages — the order
    being processed, the history of placed orders (newest first) and the recent
    uploads (newest first, no two with the same name and size, at most five). */
module PrintingContext {
  import opened Types
  import FileUtils

  /** A browser `File`, reduced to what the list compares. */
  type FileMeta = FileUtils.FileMeta

  /** The number of recent uploads kept. */
  const MAX_RECENT_UPLOADS: nat := 5

  /** `[order, ...prev]`. */
  function AddToHistory(history: seq<PrintOrder>, order: PrintOrder): (r: seq<PrintOrder>)
    ensures |r| == |history| + 1
    ensures r[0] == order && r[1..] == history
  {
    [order] + history
  }

  /** Two uploads count as the same file when name and size agree. */
  predicate SameFile(a: FileMeta, b: FileMeta) {
    a.name == b.name && a.size == b.size
  }

  /** `prev.some(f => f.name === file.name && f.size === file.size)`. */
  predicate AlreadyUploaded(prev: seq<FileMeta>, file: FileMeta) {
    exists i :: 0 <= i < |prev| && SameFile(prev[i], file)
  }

  /** No two entries share name and size. */
  predicate DistinctFiles(files: seq<FileMeta>) {
    forall i, j :: 0 <= i < j < |files| ==> !SameFile(files[i], files[j])
  }

  /** The `addToRecentUploads` updater: a file already present leaves the list as it
      is; otherwise the file goes first and the list is cut to five entries. */
  function AddRecentUpload(prev: seq<FileMeta>, file: FileMeta): (r: seq<FileMeta>)
    ensures AlreadyUploaded(prev, file) ==> r == prev
    ensures !AlreadyUploaded(prev, file) ==>
              && |r| == (if |prev| < MAX_RECENT_UPLOADS then |prev| + 1 else MAX_RECENT_UPLOADS)
              && r[0] == file
              && r[1..] == prev[..|r| - 1]
  {
    if AlreadyUploaded(prev, file) then prev
    else
      var newUploads := [file] + prev;
      var n := if |newUploads| < MAX_RECENT_UPLOADS then |newUploads| else MAX_RECENT_UPLOADS;
      newUploads[..n]
  }

  /** A list of at most five entries stays within five. */
  lemma RecentUploadsBounded(prev: seq<FileMeta>, file: FileMeta)
    requires |prev| <= MAX_RECENT_UPLOADS
    ensures |AddRecentUpload(prev, file)| <= MAX_RECENT_UPLOADS
  {
  }

  /** After an add the file is in the list, whether it was already there or not. */
  lemma {:induction false} AddedFileIsPresent(prev: seq<FileMeta>, file: FileMeta)
    ensures AlreadyUploaded(AddRecentUpload(prev, file), file)
  {
    var r := AddRecentUpload(prev, file);
    if !AlreadyUploaded(prev, file) {
      assert SameFile(r[0], file);
    }
  }

  /** Adding keeps the entries pairwise distinct by name and size. */
  lemma {:induction false} AddKeepsDistinct(prev: seq<FileMeta>, file: FileMeta)
    requires DistinctFiles(prev)
    ensures DistinctFiles(AddRecentUpload(prev, file))
  {
    var r := AddRecentUpload(prev, file);
    if !AlreadyUploaded(prev, file) {
      forall i, j | 0 <= i < j < |r| ensures !SameFile(r[i], r[j]) {
        assert r[j] == prev[j - 1];
        if i == 0 {
          assert !SameFile(prev[j - 1], file);
        } else {
          assert r[i] == prev[i - 1];
        }
      }
    }
  }

  /** The provider's state. */
  class PrintingSession {
    var currentOrder: Option<PrintOrder>
    var orderHistory: seq<PrintOrder>
    var recentUploads: seq<FileMeta>

    /** The recent uploads are distinct and at most five. */
    ghost predicate Valid()
      reads this
    {
      |recentUploads| <= MAX_RECENT_UPLOADS && DistinctFiles(recentUploads)
    }

    constructor ()
      ensures Valid()
      ensures currentOrder == None && orderHistory == [] && recentUploads == []
    {
      currentOrder := None;
      orderHistory := [];
      recentUploads := [];
    }

    /** `setCurrentOrder`. */
    method SetCurrentOrder(order: Option<PrintOrder>)
      requires Valid()
      modifies this
      ensures Valid()
      ensures currentOrder == order
      ensures orderHistory == old(orderHistory) && recentUploads == old(recentUploads)
    {
      currentOrder := order;
    }

    /** `addToOrderHistory`: the order goes first, the earlier orders follow in order. */
    method AddToOrderHistory(order: PrintOrder)
      requires Valid()
      modifies this
      ensures Valid()
      ensures orderHistory == AddToHistory(old(orderHistory), order)
      ensures currentOrder == old(currentOrder) && recentUploads == old(recentUploads)
    {
      orderHistory := AddToHistory(orderHistory, order);
    }

    /** `addToRecentUploads`. */
    method AddToRecentUploads(file: FileMeta)
      requires Valid()
      modifies this
      ensures Valid()
      ensures recentUploads == AddRecentUpload(old(recentUploads), file)
      ensures currentOrder == old(currentOrder) && orderHistory == old(orderHistory)
    {
      RecentUploadsBounded(recentUploads, file);
      AddKeepsDistinct(recentUploads, file);
      recentUploads := AddRecentUpload(recentUploads, file);
    }

    /** `clearContext`: no current order, no history, no uploads. */
    method ClearContext()
      requires Valid()
      modifies this
      ensures Valid()
      ensures currentOrder == None && orderHistory == [] && recentUploads == []
    {
      currentOrder := None;
      orderHistory := [];
      recentUploads := [];
    }
  }
}
