/**
 * The image and document upload schemas (src/utils/schema/image-doc-schema.ts)
 * as acceptance functions. Each schema is a custom "is a file or empty" check
 * followed by two refinements, one on the MIME type and one on the size. The
 * custom check is fatal: when it fails, the refinements do not run. The two
 * refinements are not: both run on a file, and each failing one adds its
 * message, type first.
 */
module FileSchema {
  import opened Constants

  /** What a form field can hold when it reaches the schema. */
  datatype FieldInput =
    | Empty                              // undefined or null
    | FileInput(mimeType: string, size: nat)
    | NotAFile                           // any other value

  datatype Kind = Image | Document

  const EXPECTED_FILE := "Expected a file"
  const UNSUPPORTED_IMAGE := "Unsupported file format. Supported formats are .jpeg, .png, .gif, .webp, .svg, .jpg"
  const UNSUPPORTED_DOCUMENT := "Unsupported file format. Supported formats are .pdf, .doc, .docx"
  const TOO_LARGE := "File size must be less than 20mb"

  function AllowedTypes(kind: Kind): seq<string> {
    match kind
    case Image => SUPPORTED_IMAGE_TYPES
    case Document => SUPPORTED_DOCUMENT_TYPES
  }

  function MaxSize(kind: Kind): nat {
    match kind
    case Image => MAX_IMAGE_SIZE
    case Document => MAX_DOCUMENT_SIZE
  }

  function UnsupportedMessage(kind: Kind): string {
    match kind
    case Image => UNSUPPORTED_IMAGE
    case Document => UNSUPPORTED_DOCUMENT
  }

  /** The type refinement: empty input passes, a file passes when its type is allowed. */
  predicate TypeRefinement(kind: Kind, input: FieldInput)
    requires !input.NotAFile?
  {
    input.Empty? || input.mimeType in AllowedTypes(kind)
  }

  /** The size refinement: empty input passes, a file passes when its size is at most the cap. */
  predicate SizeRefinement(kind: Kind, input: FieldInput)
    requires !input.NotAFile?
  {
    input.Empty? || input.size <= MaxSize(kind)
  }

  /** The issues a schema reports for one input, in order; the input is accepted when there are none. */
  function Issues(kind: Kind, input: FieldInput): (issues: seq<string>)
    ensures input.NotAFile? ==> issues == [EXPECTED_FILE]
    ensures input.Empty? ==> issues == []
    ensures input.FileInput? ==>
      && (UnsupportedMessage(kind) in issues <==> input.mimeType !in AllowedTypes(kind))
      && (TOO_LARGE in issues <==> input.size > MaxSize(kind))
      && |issues| <= 2
  {
    if input.NotAFile? then [EXPECTED_FILE]
    else
      (if TypeRefinement(kind, input) then [] else [UnsupportedMessage(kind)])
      + (if SizeRefinement(kind, input) then [] else [TOO_LARGE])
  }

  predicate Accepts(kind: Kind, input: FieldInput) {
    Issues(kind, input) == []
  }

  /** A file is accepted exactly when its type is on the list and its size is within the inclusive cap. */
  lemma FileAcceptedIff(kind: Kind, mimeType: string, size: nat)
    ensures Accepts(kind, FileInput(mimeType, size)) <==> mimeType in AllowedTypes(kind) && size <= MaxSize(kind)
  {
  }

  /** Empty fields pass both schemas; a value that is not a file fails both with "Expected a file" only. */
  lemma EmptyAndNonFileInputs(kind: Kind)
    ensures Accepts(kind, Empty)
    ensures !Accepts(kind, NotAFile) && Issues(kind, NotAFile) == [EXPECTED_FILE]
  {
  }

  /** The size bound is inclusive: a file of exactly 20 MiB of an allowed type passes, one byte more fails. */
  lemma SizeBoundInclusive(kind: Kind, mimeType: string)
    requires mimeType in AllowedTypes(kind)
    ensures Accepts(kind, FileInput(mimeType, 20 * 1024 * 1024))
    ensures Issues(kind, FileInput(mimeType, 20 * 1024 * 1024 + 1)) == [TOO_LARGE]
  {
  }

  /** An image of an unsupported type reports the image-format message, and a document of an image type is refused. */
  lemma CrossKindRefused(size: nat)
    requires size <= MAX_IMAGE_SIZE
    ensures Issues(Image, FileInput("application/pdf", size)) == [UNSUPPORTED_IMAGE]
    ensures Issues(Document, FileInput("image/png", size)) == [UNSUPPORTED_DOCUMENT]
  {
  }
}
