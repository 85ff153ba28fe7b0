/**
 * The API-key RPCs (backend/internal/controller/auth.go): argument checks, delegation to the
 * key manager, and the mapping of the manager's errors to Connect codes.  What the manager
 * answers is an input here, so that an argument check that refuses a request is seen not
 * to depend on it.
 */
module AuthController {
  import opened Wrappers
  import opened Rpc
  import ApiKey

  const NameRequired := "name is required"
  const IdRequired := "id is required"

  /** The text of a manager error. */
  function ErrorText(e: ApiKey.KeyError): string {
    match e
    case InvalidKeyID => "invalid key id"
    case KeyNotFound => "key not found"
    case Failure(message) => message
  }

  /**
   * The code `DeleteKey` gives a manager error: an invalid id is the caller's fault, an
   * unknown id is not found, and anything else is internal.
   */
  function DeleteCode(e: ApiKey.KeyError): (c: Code)
    ensures c == InvalidArgument <==> e == ApiKey.InvalidKeyID
    ensures c == NotFound <==> e == ApiKey.KeyNotFound
    ensures c == Internal <==> e.Failure?
  {
    match e
    case InvalidKeyID => InvalidArgument
    case KeyNotFound => NotFound
    case Failure(_) => Internal
  }

  /**
   * `GenerateKey`: an empty name is refused whatever the manager would say; a manager
   * error is internal; otherwise the manager's key is echoed field by field.
   */
  function GenerateKey(name: string, generated: Result<ApiKey.Key, ApiKey.KeyError>): (r: Result<ApiKey.Key, Error>)
    ensures name == "" ==> r == Err(Error(InvalidArgument, NameRequired))
    ensures name != "" && generated.Err? ==> r == Err(Error(Internal, ErrorText(generated.error)))
    ensures r.Ok? <==> name != "" && generated.Ok?
    ensures r.Ok? ==> r.value == generated.value
  {
    if name == "" then Err(Error(InvalidArgument, NameRequired))
    else match generated
      case Err(e) => Err(Error(Internal, ErrorText(e)))
      case Ok(key) => Ok(ApiKey.Key(key.id, key.name, key.key))
  }

  /**
   * `DeleteKey`: an empty id is refused whatever the manager would say; a manager error
   * takes the code `DeleteCode` gives it and keeps its text; otherwise the summary is
   * echoed.
   */
  function DeleteKey(id: string, deleted: Result<ApiKey.Summary, ApiKey.KeyError>): (r: Result<ApiKey.Summary, Error>)
    ensures id == "" ==> r == Err(Error(InvalidArgument, IdRequired))
    ensures id != "" && deleted.Err? ==> r == Err(Error(DeleteCode(deleted.error), ErrorText(deleted.error)))
    ensures r.Ok? <==> id != "" && deleted.Ok?
    ensures r.Ok? ==> r.value == deleted.value
  {
    if id == "" then Err(Error(InvalidArgument, IdRequired))
    else match deleted
      case Err(e) =>
        if e == ApiKey.InvalidKeyID then Err(Error(InvalidArgument, ErrorText(e)))
        else if e == ApiKey.KeyNotFound then Err(Error(NotFound, ErrorText(e)))
        else Err(Error(Internal, ErrorText(e)))
      case Ok(summary) => Ok(ApiKey.Summary(summary.id, summary.name))
  }

  /** `GetAllKeys`: a manager error is internal; otherwise the summaries pass through as they are. */
  function GetAllKeys(listed: Result<seq<ApiKey.Summary>, ApiKey.KeyError>): (r: Result<seq<ApiKey.Summary>, Error>)
    ensures listed.Err? ==> r == Err(Error(Internal, ErrorText(listed.error)))
    ensures listed.Ok? ==> r == Ok(listed.value)
  {
    match listed
    case Err(e) => Err(Error(Internal, ErrorText(e)))
    case Ok(summaries) => Ok(summaries)
  }

  /**
   * No manager answer makes `DeleteKey` of a non-empty id an argument error unless the
   * manager itself found the id unparsable, and a not-found code comes only from an
   * unknown id.
   */
  lemma DeleteCodes(id: string, deleted: Result<ApiKey.Summary, ApiKey.KeyError>)
    requires id != ""
    ensures DeleteKey(id, deleted).Err? && DeleteKey(id, deleted).error.code == InvalidArgument <==>
      deleted == Err(ApiKey.InvalidKeyID)
    ensures DeleteKey(id, deleted).Err? && DeleteKey(id, deleted).error.code == NotFound <==>
      deleted == Err(ApiKey.KeyNotFound)
  {
  }
}
