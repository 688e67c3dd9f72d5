/**
 * The reply box under an expanded post: the trimmed content is sent as a
 * reply to that post, and the box is cleared only once the reply is added.
 */
module ReplyForm {
  import opened Domain
  import opened Text
  import opened Queries

  const Fallback := "Failed to add reply"

  /** What `handleSubmit` hands to the mutation: nothing for blank content, else the post id and the trimmed content. */
  function Payload(postId: int, content: string): (p: Option<Mutation>)
    ensures p.None? <==> AllWhitespace(content)
    ensures p.Some? ==> p.value == AddReply(postId, Trim(content)) && Trim(content) != []
  {
    BlankIffAllWhitespace(content);
    if IsBlank(content) then None else Some(AddReply(postId, Trim(content)))
  }

  /** `!content.trim() || addReply.isPending` */
  predicate SubmitDisabled(content: string, isPending: bool) {
    IsBlank(content) || isPending
  }

  /** When no reply is in flight, the button is enabled exactly when a submit would reach the mutation. */
  lemma EnabledIffSubmitSends(postId: int, content: string)
    ensures !SubmitDisabled(content, false) <==> Payload(postId, content).Some?
  {
  }

  class Form {
    const postId: int
    var content: string
    var toast: Toast

    constructor(postId: int)
      ensures this.postId == postId && content == "" && toast == NoToast
    {
      this.postId := postId;
      content := "";
      toast := NoToast;
    }

    /** The text area's `onChange`. */
    method Edit(value: string)
      modifies this
      ensures content == value && toast == old(toast)
    {
      content := value;
    }

    /**
     * `handleSubmit`: blank content returns before any call; otherwise the
     * post id and the trimmed content go to `addReply`, and the content is
     * cleared only if the reply was added.
     */
    method Submit(client: QueryClient, actor: Option<Backend>) returns (sent: Option<Mutation>)
      modifies this, client
      ensures sent == Payload(postId, old(content))
      ensures sent.None? ==> content == old(content) && toast == old(toast) && client.entries == old(client.entries)
      ensures sent.Some? ==>
        var r := MutationFn(sent.value, actor);
        && client.entries == AfterMutation(old(client.entries), sent.value, r)
        && content == (if r.Ok? then "" else old(content))
        && toast == (if r.Ok? then SuccessToast else ErrorToast(ReportedMessage(r.thrown, Fallback)))
    {
      sent := Payload(postId, content);
      if sent.None? {
        return;
      }
      var r := client.Mutate(sent.value, actor);
      if r.Ok? {
        content := "";
        toast := SuccessToast;
      } else {
        toast := ErrorToast(ReportedMessage(r.thrown, Fallback));
      }
    }
  }
}
