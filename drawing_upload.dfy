/**
 * The drawing-analysis endpoint: the checks on the multipart upload, in their
 * fixed order, and the response built from the per-page scales.
 *
 * Saving the upload and opening it as a PDF happen outside this model; the page
 * texts of the saved document are an input.
 */
module DrawingUpload {
  import opened ScaleExtraction

  /** A file part of a multipart upload; only its client-side filename is modelled. */
  datatype FileStorage = FileStorage(filename: string)

  /** The file parts of a request, by form field name (the first part for each name). */
  type UploadedFiles = map<string, FileStorage>

  const FileField: string := "file"
  const NoFileUploaded: string := "No file uploaded"
  const NoSelectedFile: string := "No selected file"
  const ExtractionComplete: string := "Drawing scale extraction complete."

  /** The outcome of the checks done before the upload is saved. */
  datatype UploadCheck = Reject(error: string) | Proceed(file: FileStorage)

  datatype ResponseBody =
    | ErrorBody(error: string)
    | ScalesBody(sheetScales: seq<PageScaleResult>, message: string)

  datatype Response = Response(status: nat, body: ResponseBody)

  /** The two client errors, checked in order: no `file` part, then an empty filename. */
  function CheckUpload(files: UploadedFiles): (r: UploadCheck)
    ensures r == Reject(NoFileUploaded) <==> FileField !in files
    ensures r == Reject(NoSelectedFile) <==> FileField in files && files[FileField].filename == ""
    ensures r.Proceed? <==> FileField in files && files[FileField].filename != ""
    ensures r.Proceed? ==> r.file == files[FileField]
  {
    if FileField !in files then Reject(NoFileUploaded)
    else
      var file := files[FileField];
      if file.filename == "" then Reject(NoSelectedFile)
      else Proceed(file)
  }

  /**
   * The endpoint, given the page texts of the document the upload is saved as:
   * a 400 with the first failed check, or a 200 with one scale per page.
   */
  method AnalyzeDrawing(files: UploadedFiles, pages: seq<string>) returns (r: Response)
    ensures r.status == 400 <==> CheckUpload(files).Reject?
    ensures CheckUpload(files).Reject? ==> r.body == ErrorBody(CheckUpload(files).error)
    ensures r.status != 400 ==> r.status == 200 && r.body.ScalesBody?
    ensures r.body.ScalesBody? ==> IsSheetScales(pages, r.body.sheetScales) && r.body.message == ExtractionComplete
  {
    match CheckUpload(files) {
      case Reject(error) =>
        return Response(400, ErrorBody(error));
      case Proceed(_) =>
        var scales := ExtractScales(pages);
        return Response(200, ScalesBody(scales, ExtractionComplete));
    }
  }

  /**
   * A request with no `file` part is refused as "No file uploaded" whatever else it
   * holds; only a request that has one can be refused as "No selected file".
   */
  lemma CheckOrder(files: UploadedFiles, file: FileStorage)
    requires FileField !in files
    ensures CheckUpload(files) == Reject(NoFileUploaded)
    ensures CheckUpload(files[FileField := file]) != Reject(NoFileUploaded)
    ensures CheckUpload(files[FileField := file]) == Reject(NoSelectedFile) <==> file.filename == ""
  {
  }
}
