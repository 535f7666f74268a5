/** Values shared by the page, the recorder and the uploader: optional values, the outcome of an
    asynchronous call, binary media objects and the user-visible notices (toasts). */
module Common {

  datatype Option<+T> = None | Some(value: T)

  /** How an awaited call (a file read or an AI prompt) ends: with its text, or by throwing. */
  datatype Outcome = Ok(text: string) | Fail

  /** A browser `Blob` (or `File`, which is a `Blob` with a name): its MIME type and its bytes. */
  datatype Blob = Blob(mimeType: string, bytes: seq<bv8>)

  /** The destructive toasts the client raises. */
  datatype Notice =
    | TranscriptionFailed
    | ProcessingError
    | InvalidFileType
    | MicrophoneAccessDenied

  /** The title each toast shows. */
  function Title(n: Notice): string
  {
    match n
    case TranscriptionFailed => "Transcription Failed"
    case ProcessingError => "Processing Error"
    case InvalidFileType => "Invalid File Type"
    case MicrophoneAccessDenied => "Microphone Access Denied"
  }
}
