/**
 * The post composer: a text area whose content is trimmed and sent as a
 * new post, and cleared only once the post has been created.
 */
module CreatePostForm {
  import opened Domain
  import opened Text
  import opened Queries

  const Fallback := "Failed to create post"

  /** What `handleSubmit` hands to the mutation: nothing for blank content, else the trimmed content. */
  function Payload(content: string): (p: Option<string>)
    ensures p.None? <==> AllWhitespace(content)
    ensures p.Some? ==> p.value == Trim(content) && p.value != [] && !IsBlank(p.value)
  {
    BlankIffAllWhitespace(content);
    TrimIdempotent(content);
    if IsBlank(content) then None else Some(Trim(content))
  }

  /** `!content.trim() || createPost.isPending` */
  predicate SubmitDisabled(content: string, isPending: bool) {
    IsBlank(content) || isPending
  }

  /** When no post is in flight, the button is enabled exactly when a submit would reach the mutation. */
  lemma EnabledIffSubmitSends(content: string)
    ensures !SubmitDisabled(content, false) <==> Payload(content).Some?
  {
    BlankIffAllWhitespace(content);
  }

  /** `key === 'Enter' && (metaKey || ctrlKey)` */
  predicate IsSubmitShortcut(key: string, metaKey: bool, ctrlKey: bool) {
    key == "Enter" && (metaKey || ctrlKey)
  }

  class Form {
    var content: string
    var toast: Toast

    constructor()
      ensures content == "" && toast == NoToast
    {
      content := "";
      toast := NoToast;
    }

    /** The text area's `onChange`. */
    method Edit(value: string)
      modifies this
      ensures content == value && toast == old(toast)
    {
      content := value;
    }

    /**
     * `handleSubmit`: blank content returns before any call; otherwise the
     * trimmed content goes to `createPost`, and the content is cleared only
     * if the post was created.
     */
    method Submit(client: QueryClient, actor: Option<Backend>) returns (sent: Option<string>)
      modifies this, client
      ensures sent == Payload(old(content))
      ensures sent.None? ==> content == old(content) && toast == old(toast) && client.entries == old(client.entries)
      ensures sent.Some? ==>
        var r := MutationFn(CreatePost(sent.value), actor);
        && client.entries == AfterMutation(old(client.entries), CreatePost(sent.value), r)
        && content == (if r.Ok? then "" else old(content))
        && toast == (if r.Ok? then SuccessToast else ErrorToast(ReportedMessage(r.thrown, Fallback)))
    {
      sent := Payload(content);
      if sent.None? {
        return;
      }
      var r := client.Mutate(CreatePost(sent.value), actor);
      if r.Ok? {
        content := "";
        toast := SuccessToast;
      } else {
        toast := ErrorToast(ReportedMessage(r.thrown, Fallback));
      }
    }

    /** The text area's `onKeyDown`: Ctrl/Meta+Enter runs the same submit. */
    method KeyDown(key: string, metaKey: bool, ctrlKey: bool, client: QueryClient, actor: Option<Backend>)
      returns (sent: Option<string>)
      modifies this, client
      ensures !IsSubmitShortcut(key, metaKey, ctrlKey) ==>
                sent.None? && content == old(content) && toast == old(toast) && client.entries == old(client.entries)
      ensures IsSubmitShortcut(key, metaKey, ctrlKey) ==> sent == Payload(old(content))
      ensures IsSubmitShortcut(key, metaKey, ctrlKey) && sent.Some? ==>
        var r := MutationFn(CreatePost(sent.value), actor);
        && client.entries == AfterMutation(old(client.entries), CreatePost(sent.value), r)
        && content == (if r.Ok? then "" else old(content))
        && toast == (if r.Ok? then SuccessToast else ErrorToast(ReportedMessage(r.thrown, Fallback)))
    {
      sent := None;
      if IsSubmitShortcut(key, metaKey, ctrlKey) {
        sent := Submit(client, actor);
      }
    }
  }
}
