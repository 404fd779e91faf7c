/**
 * The browser `File` as the upload components see it, and the MIME types both
 * résumé uploaders accept (PDF, legacy Word, Word OOXML).
 */
module ResumeFiles {

  datatype UploadFile = UploadFile(name: string, mimeType: string, size: nat)

  const AllowedTypes: seq<string> := [
    "application/pdf",
    "application/msword",
    "application/vnd.openxmlformats-officedocument.wordprocessingml.document"
  ]

  /** `[...].includes(file.type)` */
  predicate Allowed(f: UploadFile) {
    f.mimeType in AllowedTypes
  }
}
