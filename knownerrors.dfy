/** The fixed errors of utils/api-error/error.go. */
module KnownErrors {
  import opened Wrappers
  import opened ApiError

  function Unauthorized(): (r: Err)
    ensures GetApiErrors(Some(r)) == ApiErrors(StatusUnauthorized, WarnLevel, ["Unauthorized!"])
  {
    NewWarn(StatusUnauthorized, ["Unauthorized!"])
  }

  function FailedToConvertUpdatedAt(): (r: Err)
    ensures GetApiErrors(Some(r)) == ApiErrors(StatusInternalServerError, ErrorLevel, ["Failed convert updated at to time"])
  {
    NewError(StatusInternalServerError, ["Failed convert updated at to time"])
  }

  function FailedToConvertCreatedAt(): (r: Err)
    ensures GetApiErrors(Some(r)) == ApiErrors(StatusInternalServerError, ErrorLevel, ["Failed convert created at to time"])
  {
    NewError(StatusInternalServerError, ["Failed convert created at to time"])
  }

  function FileNotFound(): (r: Err)
    ensures GetApiErrors(Some(r)) == ApiErrors(StatusNotFound, WarnLevel, ["File not found!"])
  {
    NewWarn(StatusNotFound, ["File not found!"])
  }

  function InvalidFileId(): (r: Err)
    ensures GetApiErrors(Some(r)) == ApiErrors(StatusBadRequest, WarnLevel, ["fileId must be UUID!"])
  {
    NewWarn(StatusBadRequest, ["fileId must be UUID!"])
  }

  /** Each fixed error's text is its one message. */
  lemma KnownErrorTexts()
    ensures Text(Unauthorized()) == "Unauthorized!"
    ensures Text(FileNotFound()) == "File not found!"
    ensures Text(InvalidFileId()) == "fileId must be UUID!"
  {
  }
}
