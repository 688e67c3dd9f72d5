/**
 * The dialog a signed-in user without a profile must fill in: a required
 * display name, an optional bio and a set of interests.
 */
module ProfileSetupModal {
  import opened Domain
  import opened Text
  import opened Queries
  import opened InterestSelection

  const NameRequired := "Display name is required."
  const Fallback := "Failed to create profile"
  const AfterJoining := "/feed"

  /** What `handleSubmit` sends: nothing for a blank name, else the trimmed name and bio and the interests as selected. */
  function Payload(displayName: string, bio: string, interests: seq<string>): (p: Option<Mutation>)
    ensures p.None? <==> AllWhitespace(displayName)
    ensures p.Some? ==> p.value == CreateProfile(Trim(displayName), Trim(bio), interests) && Trim(displayName) != []
  {
    BlankIffAllWhitespace(displayName);
    if IsBlank(displayName) then None else Some(CreateProfile(Trim(displayName), Trim(bio), interests))
  }

  /** `disabled={createProfile.isPending}` */
  predicate SubmitDisabled(isPending: bool) {
    isPending
  }

  /** After a successful profile creation the caller's cached profile is stale, so the layout reads it again. */
  lemma JoiningRereadsOwnProfile(m: map<QueryKey, Entry>, p: Mutation, env: Env)
    requires p.CreateProfile? && ActorReady(env)
    requires MutationFn(p, env.actor).Ok?
    ensures NeedsFetch(AfterMutation(m, p, MutationFn(p, env.actor)), CurrentUserProfileKey)
    ensures Enabled(CurrentUserProfileKey, env)
  {
  }

  /**
   * Unlike the post composer, the join button is not disabled for a blank
   * name: the submit runs and answers with the name error instead.
   */
  lemma BlankNameIsReportedNotDisabled(displayName: string, bio: string, interests: seq<string>)
    requires AllWhitespace(displayName)
    ensures !SubmitDisabled(false)
    ensures Payload(displayName, bio, interests).None?
  {
  }

  class Modal {
    var displayName: string
    var bio: string
    var selectedInterests: seq<string>
    var nameError: string
    var toast: Toast
    var navigatedTo: Option<string>

    constructor()
      ensures displayName == "" && bio == "" && selectedInterests == [] && nameError == ""
      ensures toast == NoToast && navigatedTo == None
      ensures NoDuplicates(selectedInterests)
    {
      displayName, bio, selectedInterests, nameError := "", "", [], "";
      toast, navigatedTo := NoToast, None;
    }

    /** The name field's `onChange`: a value that is not blank clears the error. */
    method EditDisplayName(value: string)
      modifies this
      ensures displayName == value
      ensures nameError == if IsBlank(value) then old(nameError) else ""
      ensures bio == old(bio) && selectedInterests == old(selectedInterests)
      ensures toast == old(toast) && navigatedTo == old(navigatedTo)
    {
      displayName := value;
      if !IsBlank(value) {
        nameError := "";
      }
    }

    /** The bio field's `onChange`. */
    method EditBio(value: string)
      modifies this
      ensures bio == value
      ensures displayName == old(displayName) && selectedInterests == old(selectedInterests) && nameError == old(nameError)
      ensures toast == old(toast) && navigatedTo == old(navigatedTo)
    {
      bio := value;
    }

    /** Clicking an interest tag. */
    method ToggleInterest(interest: string)
      requires NoDuplicates(selectedInterests)
      modifies this
      ensures selectedInterests == Toggle(old(selectedInterests), interest)
      ensures NoDuplicates(selectedInterests)
      ensures displayName == old(displayName) && bio == old(bio) && nameError == old(nameError)
      ensures toast == old(toast) && navigatedTo == old(navigatedTo)
    {
      ToggleKeepsNoDuplicates(selectedInterests, interest);
      selectedInterests := Toggle(selectedInterests, interest);
    }

    /**
     * `handleSubmit`: a blank name sets the error and stops before any call;
     * otherwise the error is cleared and `createProfile` is called. Success
     * moves to the feed; failure reports the error. The fields are kept.
     */
    method Submit(client: QueryClient, actor: Option<Backend>) returns (sent: Option<Mutation>)
      modifies this, client
      ensures sent == Payload(old(displayName), old(bio), old(selectedInterests))
      ensures displayName == old(displayName) && bio == old(bio) && selectedInterests == old(selectedInterests)
      ensures sent.None? ==>
        && nameError == NameRequired
        && toast == old(toast) && navigatedTo == old(navigatedTo)
        && client.entries == old(client.entries)
      ensures sent.Some? ==>
        var r := MutationFn(sent.value, actor);
        && nameError == ""
        && client.entries == AfterMutation(old(client.entries), sent.value, r)
        && toast == (if r.Ok? then SuccessToast else ErrorToast(ReportedMessage(r.thrown, Fallback)))
        && navigatedTo == (if r.Ok? then Some(AfterJoining) else old(navigatedTo))
    {
      sent := Payload(displayName, bio, selectedInterests);
      if sent.None? {
        nameError := NameRequired;
        return;
      }
      nameError := "";
      var r := client.Mutate(sent.value, actor);
      if r.Ok? {
        toast := SuccessToast;
        navigatedTo := Some(AfterJoining);
      } else {
        toast := ErrorToast(ReportedMessage(r.thrown, Fallback));
      }
    }
  }
}
