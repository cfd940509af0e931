/**
 * The value objects of the conversation domain: frozen dataclasses whose
 * `__post_init__` rejects bad values with a `ValueError`. Each one is a subset
 * type (the values that pass its check) and a constructor function that
 * either returns the value or the `ValueError` the dataclass raises.
 */
module ValueObjects {
  import opened Text
  import opened Wrappers
  import opened Errors

  // ---------------------------------------------------------------------------
  // Identifiers: any non-empty string.
  // ---------------------------------------------------------------------------

  type MessageId = s: string | s != [] witness "0"
  type ConversationId = s: string | s != [] witness "0"
  type UserId = s: string | s != [] witness "0"

  function MakeMessageId(v: string): (r: Result<MessageId, Exc>)
    ensures r.Ok? <==> v != []
    ensures r.Ok? ==> r.value == v
    ensures r.Err? ==> r.error == ValueError("MessageId cannot be empty")
  {
    if v == [] then Err(ValueError("MessageId cannot be empty")) else Ok(v)
  }

  function MakeConversationId(v: string): (r: Result<ConversationId, Exc>)
    ensures r.Ok? <==> v != []
    ensures r.Ok? ==> r.value == v
    ensures r.Err? ==> r.error == ValueError("ConversationId cannot be empty")
  {
    if v == [] then Err(ValueError("ConversationId cannot be empty")) else Ok(v)
  }

  function MakeUserId(v: string): (r: Result<UserId, Exc>)
    ensures r.Ok? <==> v != []
    ensures r.Ok? ==> r.value == v
    ensures r.Err? ==> r.error == ValueError("UserId cannot be empty")
  {
    if v == [] then Err(ValueError("UserId cannot be empty")) else Ok(v)
  }

  // ---------------------------------------------------------------------------
  // `uuid.uuid4()`: sixteen random bytes with the version and variant bits set.
  // ---------------------------------------------------------------------------

  /** Sixteen random bytes, written as their 32 hexadecimal digits. */
  predicate IsNibbles(random: seq<nat>) {
    |random| == 32 && forall i :: 0 <= i < |random| ==> random[i] < 16
  }

  /** The digits, each written as one hexadecimal character. */
  function HexString(digits: seq<nat>): (h: string)
    requires forall i :: 0 <= i < |digits| ==> digits[i] < 16
    ensures |h| == |digits| && forall i :: 0 <= i < |digits| ==> h[i] == HexDigit(digits[i])
  {
    if digits == [] then [] else [HexDigit(digits[0])] + HexString(digits[1..])
  }

  /**
   * `str(uuid.uuid4())` for the given random bytes: the version digit is
   * forced to 4, the variant digit to one of 8, 9, a, b, and the 32 digits are
   * grouped 8-4-4-4-12.
   */
  function Uuid4(random: seq<nat>): (r: string)
    requires IsNibbles(random)
    ensures |r| == 36
    ensures r[8] == '-' && r[13] == '-' && r[18] == '-' && r[23] == '-'
    ensures r[14] == '4'
    ensures r[19] == '8' || r[19] == '9' || r[19] == 'a' || r[19] == 'b'
  {
    var n := random[12 := 4][16 := 8 + random[16] % 4];
    var h := HexString(n);
    var r := h[..8] + "-" + h[8..12] + "-" + h[12..16] + "-" + h[16..20] + "-" + h[20..];
    assert r[14] == h[12] && r[19] == h[16];
    r
  }

  /** `MessageId.generate()`: a uuid4 string, which always passes the non-empty check. */
  function GenerateMessageId(random: seq<nat>): (id: MessageId)
    requires IsNibbles(random)
    ensures |id| == 36 && MakeMessageId(id) == Ok(id)
  {
    Uuid4(random)
  }

  /** `ConversationId.generate()`. */
  function GenerateConversationId(random: seq<nat>): (id: ConversationId)
    requires IsNibbles(random)
    ensures |id| == 36 && MakeConversationId(id) == Ok(id)
  {
    Uuid4(random)
  }

  // ---------------------------------------------------------------------------
  // Content, commands and paths: text that is not blank.
  // ---------------------------------------------------------------------------

  const MaxContentLength := 10000

  predicate IsContent(s: string) {
    !IsBlank(s) && |s| <= MaxContentLength
  }

  /** A one-character text that is not blank, the witness of the non-blank types. */
  function Visible(): (s: string)
    ensures !IsBlank(s) && |s| == 1
  {
    var s := ".";
    assert !IsSpace(s[0]);
    s
  }

  type Content = s: string | IsContent(s) witness Visible()

  /**
   * `Content(v)`: an empty or whitespace-only text is refused first, then one
   * longer than 10000 characters; exactly 10000 characters are accepted.
   */
  function MakeContent(v: string): (r: Result<Content, Exc>)
    ensures r.Ok? <==> !IsBlank(v) && |v| <= MaxContentLength
    ensures r.Ok? ==> r.value == v
    ensures IsBlank(v) ==> r == Err(ValueError("Content cannot be empty"))
    ensures !IsBlank(v) && |v| > MaxContentLength ==> r == Err(ValueError("Content too long"))
  {
    StripEmptyIffBlank(v);
    if v == [] || Strip(v) == [] then Err(ValueError("Content cannot be empty"))
    else if |v| > MaxContentLength then Err(ValueError("Content too long"))
    else Ok(v)
  }

  type Command = s: string | !IsBlank(s) witness Visible()
  type FilePath = s: string | !IsBlank(s) witness Visible()

  function MakeCommand(v: string): (r: Result<Command, Exc>)
    ensures r.Ok? <==> !IsBlank(v)
    ensures r.Ok? ==> r.value == v
    ensures r.Err? ==> r.error == ValueError("Command cannot be empty")
  {
    StripEmptyIffBlank(v);
    if v == [] || Strip(v) == [] then Err(ValueError("Command cannot be empty")) else Ok(v)
  }

  function MakeFilePath(v: string): (r: Result<FilePath, Exc>)
    ensures r.Ok? <==> !IsBlank(v)
    ensures r.Ok? ==> r.value == v
    ensures r.Err? ==> r.error == ValueError("FilePath cannot be empty")
  {
    StripEmptyIffBlank(v);
    if v == [] || Strip(v) == [] then Err(ValueError("FilePath cannot be empty")) else Ok(v)
  }

  // ---------------------------------------------------------------------------
  // Closed vocabularies.
  // ---------------------------------------------------------------------------

  const ValidRoles: seq<string> := ["user", "assistant", "system"]

  type Role = s: string | s in ValidRoles witness "user"

  /** The f-string of the check prints the Python list of valid roles. */
  const RoleError := ValueError("Role must be one of: ['user', 'assistant', 'system']")

  /** `Role(v)`: exactly "user", "assistant" and "system" are roles. */
  function MakeRole(v: string): (r: Result<Role, Exc>)
    ensures r.Ok? <==> v == "user" || v == "assistant" || v == "system"
    ensures r.Ok? ==> r.value == v
    ensures r.Err? ==> r.error == RoleError
  {
    if v in ValidRoles then Ok(v) else Err(RoleError)
  }

  const ValidStatuses: seq<string> := ["pending", "running", "completed", "failed", "cancelled"]

  type Status = s: string | s in ValidStatuses witness "pending"

  const StatusError := ValueError("Status must be one of: ['pending', 'running', 'completed', 'failed', 'cancelled']")

  /** `Status(v)`: exactly the five listed states; in particular "stopped" is not one. */
  function MakeStatus(v: string): (r: Result<Status, Exc>)
    ensures r.Ok? <==> v in {"pending", "running", "completed", "failed", "cancelled"}
    ensures r.Ok? ==> r.value == v
    ensures r.Err? ==> r.error == StatusError
  {
    if v in ValidStatuses then Ok(v) else Err(StatusError)
  }

  lemma StoppedIsNoStatus()
    ensures MakeStatus("stopped") == Err(StatusError)
  {
  }

  type Url = s: string | StartsWith(s, "http://") || StartsWith(s, "https://") witness "http://"

  /** `Url(v)`: accepted exactly when it starts with "http://" or "https://". */
  function MakeUrl(v: string): (r: Result<Url, Exc>)
    ensures r.Ok? <==> StartsWith(v, "http://") || StartsWith(v, "https://")
    ensures r.Ok? ==> r.value == v
    ensures r.Err? ==> r.error == ValueError("URL must start with http:// or https://")
  {
    if StartsWith(v, "http://") || StartsWith(v, "https://") then Ok(v)
    else Err(ValueError("URL must start with http:// or https://"))
  }

  // ---------------------------------------------------------------------------
  // Time.
  // ---------------------------------------------------------------------------

  /**
   * A naive UTC `datetime`, kept as what the backend reads from it: its
   * `isoformat()` text and its `timestamp()` in whole seconds. Both come
   * from the clock, which is a parameter wherever `utcnow` is called.
   */
  datatype DateTime = DateTime(iso: string, epochSeconds: int)

  /** The `Timestamp` value object: a wrapper around a `datetime`. */
  datatype Timestamp = Timestamp(value: DateTime)
}
