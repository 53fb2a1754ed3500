/** The `PrintingForm` component: upload a PDF, choose the print options, see the
    server's price, page through the preview, and submit the order. The upload and
    price calls are server round trips; their replies are parameters here. */
module PrintingForm {
  import opened Types
  import Receipt

  /** What the upload endpoint returns for a processed PDF. */
  datatype FileInfo = FileInfo(
    fileId: string,
    originalName: string,
    pageCount: nat,
    colorPages: nat,
    monochromePages: nat,
    size: nat)

  /** The reply to `uploadPdf`: the processed file, or a thrown error. */
  datatype UploadReply = Uploaded(info: FileInfo) | UploadThrew

  /** The reply to `calculatePrice`: a breakdown, or a thrown error. */
  datatype PriceReply = Priced(breakdown: PriceBreakdown) | PriceThrew

  /** The body `updatePrice` sends: the page split from the upload and the options. */
  datatype PriceRequest = PriceRequest(
    colorPages: nat,
    monochromePages: nat,
    printColor: PrintColor,
    binding: Binding,
    campusDelivery: bool)

  const API_BASE_URL := "http://localhost:5000/api"
  const UPLOAD_FAILED := "Failed to upload and process the PDF file"
  const NO_FILE := "Please upload a PDF file"

  const PREVIEW_PREFIX := API_BASE_URL + "/pdf-preview/"

  /** `getPdfPreviewUrl(fileId)`: the preview route followed by the file id. */
  function PreviewUrl(fileId: string): (url: string)
    ensures |url| == |PREVIEW_PREFIX| + |fileId|
    ensures url[..|PREVIEW_PREFIX|] == PREVIEW_PREFIX && url[|PREVIEW_PREFIX|..] == fileId
  {
    PREVIEW_PREFIX + fileId
  }

  /** Different files get different preview addresses. */
  lemma PreviewUrlInjective(a: string, b: string)
    requires PreviewUrl(a) == PreviewUrl(b)
    ensures a == b
  {
    assert a == PreviewUrl(a)[|PREVIEW_PREFIX|..];
  }

  /** The order `handleSubmit` composes: file identity and page count from the upload,
      the current options, the server's total, and no page split. */
  function ComposeOrder(info: FileInfo, printColor: PrintColor, binding: Binding, campusDelivery: bool,
                        breakdown: PriceBreakdown): (order: PrintOrder)
    ensures order.fileId == info.fileId && order.fileName == info.originalName && order.pageCount == info.pageCount
    ensures order.printColor == printColor && order.binding == binding && order.campusDelivery == campusDelivery
    ensures order.totalPrice == breakdown.totalCost
    ensures order.colorPages.None? && order.monochromePages.None? && order.userInfo.None?
  {
    PrintOrder(info.fileId, info.originalName, info.pageCount, None, None,
               printColor, binding, campusDelivery, breakdown.totalCost, None)
  }

  /** The receipt of a submitted order shows the server's total and the uploaded file's
      name (or the fallback when the name is empty). */
  lemma ReceiptOfComposedOrder(info: FileInfo, printColor: PrintColor, binding: Binding, campusDelivery: bool,
                               breakdown: PriceBreakdown, orderNumber: string)
    ensures var r := Receipt.GenerateReceiptData(ComposeOrder(info, printColor, binding, campusDelivery, breakdown), orderNumber);
            && r.totalPrice == breakdown.totalCost
            && r.pageCount == info.pageCount
            && (info.originalName != "" ==> r.fileName == info.originalName)
  {
  }

  /** The component's state. */
  class Form {
    var isUploading: bool
    var uploadError: Option<string>
    var fileInfo: Option<FileInfo>
    var previewUrl: Option<string>
    var currentPage: int
    var printColor: PrintColor
    var binding: Binding
    var campusDelivery: bool
    var priceBreakdown: Option<PriceBreakdown>

    /** The preview belongs to the uploaded file, and the page cursor is a page of it
        (or the first page). */
    ghost predicate Valid()
      reads this
    {
      && !isUploading
      && previewUrl == (if fileInfo.Some? then Some(PreviewUrl(fileInfo.value.fileId)) else None)
      && currentPage >= 1
      && (fileInfo.Some? ==> currentPage == 1 || currentPage <= fileInfo.value.pageCount)
    }

    constructor ()
      ensures Valid()
      ensures fileInfo.None? && previewUrl.None? && priceBreakdown.None? && uploadError.None?
      ensures currentPage == 1 && printColor == Monochrome && binding == NoBinding && !campusDelivery
    {
      isUploading, uploadError, fileInfo, previewUrl := false, None, None, None;
      currentPage := 1;
      printColor, binding, campusDelivery := Monochrome, NoBinding, false;
      priceBreakdown := None;
    }

    /** `handleFileChange`: nothing happens when no file was chosen; a successful upload
        stores the file, its preview address and page 1; a failed one clears file and
        preview and records the error. The price is left to `UpdatePrice`. */
    method HandleFileChange(fileCount: nat, reply: UploadReply)
      requires Valid()
      modifies this
      ensures Valid()
      ensures fileCount == 0 ==>
                fileInfo == old(fileInfo) && uploadError == old(uploadError) && currentPage == old(currentPage)
      ensures fileCount > 0 && reply.Uploaded? ==>
                && fileInfo == Some(reply.info) && previewUrl == Some(PreviewUrl(reply.info.fileId))
                && currentPage == 1 && uploadError.None?
      ensures fileCount > 0 && reply.UploadThrew? ==>
                && fileInfo.None? && previewUrl.None? && uploadError == Some(UPLOAD_FAILED)
                && currentPage == old(currentPage)
      ensures priceBreakdown == old(priceBreakdown)
      ensures printColor == old(printColor) && binding == old(binding) && campusDelivery == old(campusDelivery)
    {
      if fileCount == 0 {
        return;
      }
      isUploading := true;
      uploadError := None;
      match reply {
        case Uploaded(info) =>
          fileInfo := Some(info);
          previewUrl := Some(PreviewUrl(info.fileId));
          currentPage := 1;
        case UploadThrew =>
          uploadError := Some(UPLOAD_FAILED);
          fileInfo := None;
          previewUrl := None;
      }
      isUploading := false;
    }

    /** The print-option inputs. */
    method SetOptions(color: PrintColor, b: Binding, delivery: bool)
      requires Valid()
      modifies this
      ensures Valid()
      ensures printColor == color && binding == b && campusDelivery == delivery
      ensures fileInfo == old(fileInfo) && previewUrl == old(previewUrl) && currentPage == old(currentPage)
      ensures priceBreakdown == old(priceBreakdown) && uploadError == old(uploadError)
    {
      printColor, binding, campusDelivery := color, b, delivery;
    }

    /** `updatePrice`, run after every option or file change: without a file no request
        is made; otherwise the page split and options are sent, and only a reply that
        arrives replaces the breakdown. */
    method UpdatePrice(reply: PriceReply) returns (request: Option<PriceRequest>)
      requires Valid()
      modifies this
      ensures Valid()
      ensures request.None? <==> fileInfo.None?
      ensures request.Some? ==>
                request.value == PriceRequest(fileInfo.value.colorPages, fileInfo.value.monochromePages,
                                              printColor, binding, campusDelivery)
      ensures priceBreakdown == if request.Some? && reply.Priced? then Some(reply.breakdown) else old(priceBreakdown)
      ensures fileInfo == old(fileInfo) && previewUrl == old(previewUrl) && currentPage == old(currentPage)
      ensures uploadError == old(uploadError)
      ensures printColor == old(printColor) && binding == old(binding) && campusDelivery == old(campusDelivery)
    {
      if fileInfo.None? {
        return None;
      }
      var info := fileInfo.value;
      request := Some(PriceRequest(info.colorPages, info.monochromePages, printColor, binding, campusDelivery));
      if reply.Priced? {
        priceBreakdown := Some(reply.breakdown);
      }
    }

    /** `handleSubmit`: without both a file and a price the error is set and nothing is
        submitted; otherwise the composed order goes to `onOrderSubmit`. */
    method HandleSubmit() returns (submitted: Option<PrintOrder>)
      requires Valid()
      modifies this
      ensures Valid()
      ensures submitted.None? <==> old(fileInfo).None? || old(priceBreakdown).None?
      ensures submitted.None? ==> uploadError == Some(NO_FILE)
      ensures submitted.Some? ==>
                && fileInfo.Some? && priceBreakdown.Some?
                && submitted.value == ComposeOrder(fileInfo.value, printColor, binding, campusDelivery, priceBreakdown.value)
                && uploadError == old(uploadError)
      ensures fileInfo == old(fileInfo) && previewUrl == old(previewUrl) && currentPage == old(currentPage)
      ensures priceBreakdown == old(priceBreakdown)
      ensures printColor == old(printColor) && binding == old(binding) && campusDelivery == old(campusDelivery)
    {
      if fileInfo.None? || priceBreakdown.None? {
        uploadError := Some(NO_FILE);
        return None;
      }
      submitted := Some(ComposeOrder(fileInfo.value, printColor, binding, campusDelivery, priceBreakdown.value));
    }

    /** `handleClearFile`: file, preview, error and price are all cleared. */
    method HandleClearFile()
      requires Valid()
      modifies this
      ensures Valid()
      ensures fileInfo.None? && previewUrl.None? && uploadError.None? && priceBreakdown.None?
      ensures currentPage == old(currentPage)
      ensures printColor == old(printColor) && binding == old(binding) && campusDelivery == old(campusDelivery)
    {
      fileInfo := None;
      previewUrl := None;
      uploadError := None;
      priceBreakdown := None;
    }

    /** `handlePageChange`: only a page of the uploaded file is accepted. */
    method HandlePageChange(newPage: int)
      requires Valid()
      modifies this
      ensures Valid()
      ensures currentPage == if fileInfo.Some? && 1 <= newPage <= fileInfo.value.pageCount then newPage
                             else old(currentPage)
      ensures fileInfo == old(fileInfo) && previewUrl == old(previewUrl) && priceBreakdown == old(priceBreakdown)
      ensures uploadError == old(uploadError)
      ensures printColor == old(printColor) && binding == old(binding) && campusDelivery == old(campusDelivery)
    {
      if fileInfo.None? {
        return;
      }
      var maxPage := fileInfo.value.pageCount;
      if newPage >= 1 && newPage <= maxPage {
        currentPage := newPage;
      }
    }
  }
}
