/**
 * The records the remote backend hands to the web client, the way a remote
 * call can fail, and the backend itself as an abstract oracle.
 *
 * Principals are opaque identity keys; the client only ever uses their
 * textual form, so a principal is modelled by that text.
 */
module Domain {

  datatype Option<+T> = None | Some(value: T)

  /** An identity key; `text` is what `toString()` gives. */
  datatype Principal = Principal(text: string)

  datatype Reply = Reply(content: string, author: Principal, timestamp: int)

  /** `timestamp` is in nanoseconds, as the backend stores it. */
  datatype Post = Post(id: int, content: string, author: Principal, timestamp: int, replies: seq<Reply>)

  datatype Profile = Profile(id: Principal, bio: string, displayName: string, joinDate: int, interests: seq<string>)

  /** What a rejected promise carries: an `Error` object with a message, or any other thrown value. */
  datatype Thrown = ErrorObject(message: string) | OtherValue

  /** The settled value of an awaited call. */
  datatype Outcome<+T> = Ok(value: T) | Err(thrown: Thrown)

  /**
   * The remote actor. Every field is the answer the backend would give to
   * one remote call; what the backend does with a write is not visible to
   * the client and is not modelled.
   */
  datatype Backend = Backend(
    getAllPosts: Outcome<seq<Post>>,
    getCallerUserProfile: Outcome<Option<Profile>>,
    getProfile: Principal -> Outcome<Option<Profile>>,
    findProfilesByInterests: seq<string> -> Outcome<seq<Profile>>,
    createPost: string -> Outcome<()>,
    addReply: (int, string) -> Outcome<()>,
    createProfile: (string, string, seq<string>) -> Outcome<()>,
    updateProfile: (string, string, seq<string>) -> Outcome<()>
  )

  /** The last notification a form raised: none yet, its success message, or an error message. */
  datatype Toast = NoToast | SuccessToast | ErrorToast(message: string)

  /** The message a form reports for a failed call: the error's own message, or the form's fallback. */
  function ReportedMessage(t: Thrown, fallback: string): (m: string)
    ensures t.ErrorObject? ==> m == t.message
    ensures t.OtherValue? ==> m == fallback
  {
    match t
    case ErrorObject(message) => message
    case OtherValue => fallback
  }
}
