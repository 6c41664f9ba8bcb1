/** Upload limits shared by the file schemas: MIME allow-lists and size caps (src/utils/constants.ts). */
module Constants {

  const SUPPORTED_IMAGE_TYPES: seq<string> := [
    "image/jpeg",
    "image/png",
    "image/gif",
    "image/webp",
    "image/svg+xml",
    "image/jpg"
  ]

  const SUPPORTED_DOCUMENT_TYPES: seq<string> := [
    "application/pdf",
    "application/msword",
    "application/vnd.openxmlformats-officedocument.wordprocessingml.document"
  ]

  /** 20 MiB, in bytes. */
  const MAX_IMAGE_SIZE: nat := 20 * 1024 * 1024
  const MAX_DOCUMENT_SIZE: nat := 20 * 1024 * 1024

  /** Both allow-lists are duplicate-free, and JPEG is accepted under both of its spellings. */
  lemma AllowListsShape()
    ensures |SUPPORTED_IMAGE_TYPES| == 6 && |SUPPORTED_DOCUMENT_TYPES| == 3
    ensures "image/jpeg" in SUPPORTED_IMAGE_TYPES && "image/jpg" in SUPPORTED_IMAGE_TYPES
    ensures forall i, j :: 0 <= i < j < |SUPPORTED_IMAGE_TYPES| ==> SUPPORTED_IMAGE_TYPES[i] != SUPPORTED_IMAGE_TYPES[j]
    ensures forall i, j :: 0 <= i < j < |SUPPORTED_DOCUMENT_TYPES| ==> SUPPORTED_DOCUMENT_TYPES[i] != SUPPORTED_DOCUMENT_TYPES[j]
    ensures forall t :: t in SUPPORTED_IMAGE_TYPES ==> t !in SUPPORTED_DOCUMENT_TYPES
  {
  }

  /** Both caps are the same twenty mebibytes. */
  lemma SizeCaps()
    ensures MAX_IMAGE_SIZE == MAX_DOCUMENT_SIZE == 20971520
    ensures MAX_IMAGE_SIZE % (1024 * 1024) == 0 && MAX_IMAGE_SIZE / (1024 * 1024) == 20
  {
  }
}
