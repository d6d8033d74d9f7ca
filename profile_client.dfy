/**
 * The profile page (`ProfileContent` in taskapp/frontendd/src/components/profile.jsx):
 * its state `profile`, `loading`, `error`, `message` and `showDeleteConfirm`,
 * and the commands `fetchProfile`, `handleUpdate` and `handleDelete`. Each
 * command is one atomic step; the signed-in user, the session token and the
 * network answers are inputs, the requests sent are recorded in `sent`, and
 * `signedOut` records the call to `signOut`.
 */
module ProfileClient {
  import opened Wrappers
  import opened Text
  import ProfileApi

  /** The two fields the form edits and a PUT sends. */
  datatype ProfileForm = ProfileForm(name: string, email: string)

  /** The `profile` object of a GET answer, as far as the page reads it. */
  datatype ProfileData = ProfileData(name: Option<string>, email: Option<string>)

  /**
   * What a `fetch` comes back with: an ok response and its JSON, a response
   * that is not ok with its status and body text, or a thrown error with its
   * message.
   */
  datatype Reply<T> = Ok(data: T) | NotOk(status: nat, text: string) | Throw(message: string)

  /** A request to the profile API, with the bearer token it carries. */
  datatype ProfileCall = GetProfile(token: string) | PutProfile(token: string, body: ProfileForm) | DeleteProfile(token: string)

  /** JavaScript's `a || b` for a string that may be missing. */
  function JsOr(a: Option<string>, b: string): (r: string)
    ensures Truthy(a) ==> r == a.value
    ensures !Truthy(a) ==> r == b
  {
    if Truthy(a) then a.value else b
  }

  /**
   * The message of the error thrown for a response that is not ok,
   * `${prefix}: ${status} - ${text}`: the status and the body text can be
   * read back from it.
   */
  function FailureText(prefix: string, status: nat, text: string): (r: string)
    ensures |r| == |prefix| + 2 + |NatToString(status)| + 3 + |text|
    ensures r[..|prefix|] == prefix
    ensures r[|prefix| + 2..|prefix| + 2 + |NatToString(status)|] == NatToString(status)
    ensures r[|r| - |text|..] == text
  {
    prefix + ": " + NatToString(status) + " - " + text
  }

  /** Distinct statuses give distinct error texts. */
  lemma FailureTextShowsStatus(prefix: string, status1: nat, status2: nat, text: string)
    requires FailureText(prefix, status1, text) == FailureText(prefix, status2, text)
    ensures status1 == status2
  {
    var d1, d2 := NatToString(status1), NatToString(status2);
    assert |d1| == |d2|;
    assert d1 == FailureText(prefix, status1, text)[|prefix| + 2..|prefix| + 2 + |d1|] == d2;
    NatToStringRoundTrip(status1);
    NatToStringRoundTrip(status2);
  }

  /**
   * The form after a profile is loaded: its name or empty, and its email,
   * else the email attribute of the signed-in user, else empty.
   */
  function LoadedForm(p: ProfileData, attributesEmail: Option<string>): (f: ProfileForm)
    ensures f.name == JsOr(p.name, "")
    ensures f.email == JsOr(p.email, JsOr(attributesEmail, ""))
  {
    ProfileForm(JsOr(p.name, ""), JsOr(p.email, JsOr(attributesEmail, "")))
  }

  /** The `profile` object the page finds in a body of the profile API, if any. */
  function ClientView(b: ProfileApi.Body): (v: Option<ProfileData>)
    ensures v.Some? <==> b.DynamoProfile? || b.RdsProfile?
  {
    match b
    case DynamoProfile(_, item) => Some(ProfileData(Some(item.name), item.email))
    case RdsProfile(_, email, name) => Some(ProfileData(name, email))
    case _ => None
  }

  /**
   * What the page saves is what it loads back: a PUT of a form with a name
   * and an email succeeds, and the next GET fills the form with the same
   * two values.
   */
  lemma SavedFormLoadsBack(s: ProfileApi.Stores, userId: string, form: ProfileForm, now: nat,
                           dbAvailable: bool, attributesEmail: Option<string>)
    requires form.name != "" && form.email != ""
    ensures var body := Some(ProfileApi.ProfileInput(Some(form.name), Some(form.email)));
            var o := ProfileApi.UpdateOutcome(s, userId, userId, body, now, true);
            && o.response.statusCode == 200
            && var view := ClientView(ProfileApi.GetUserProfile(o.after, userId, dbAvailable).body);
               view.Some? && LoadedForm(view.value, attributesEmail) == form
  {
    var body := Some(ProfileApi.ProfileInput(Some(form.name), Some(form.email)));
    ProfileApi.UpdateThenGet(s, userId, body, now, true, dbAvailable);
  }

  /** The form and the error text a load leaves behind. */
  datatype LoadResult = LoadResult(profile: ProfileForm, error: string)

  /**
   * What `fetchProfile` does to the form and the error once a user is signed
   * in, starting from the form `before`: a missing token and each kind of
   * failed answer keep the form and set their own error text; an answer
   * carrying a profile fills the form and leaves the error empty. The error
   * is empty exactly when a profile was loaded.
   */
  function Loaded(before: ProfileForm, attributesEmail: Option<string>, token: Option<string>,
                  reply: Reply<Option<ProfileData>>): (r: LoadResult)
    ensures !Truthy(token) ==> r == LoadResult(before, "Authentication token not found")
    ensures Truthy(token) && reply.Ok? && reply.data.Some? ==>
      r == LoadResult(LoadedForm(reply.data.value, attributesEmail), "")
    ensures Truthy(token) && reply.Ok? && reply.data.None? ==> r == LoadResult(before, "Invalid profile data structure")
    ensures Truthy(token) && reply.NotOk? ==>
      r == LoadResult(before, FailureText("Failed to fetch profile", reply.status, reply.text))
    ensures Truthy(token) && reply.Throw? ==> r == LoadResult(before, JsOr(Some(reply.message), "Failed to load profile"))
    ensures r.error == "" <==> Truthy(token) && reply.Ok? && reply.data.Some?
  {
    if !Truthy(token) then LoadResult(before, "Authentication token not found")
    else
      match reply
      case NotOk(status, text) => LoadResult(before, FailureText("Failed to fetch profile", status, text))
      case Throw(m) => LoadResult(before, JsOr(Some(m), "Failed to load profile"))
      case Ok(data) =>
        if data.Some? then LoadResult(LoadedForm(data.value, attributesEmail), "")
        else LoadResult(before, "Invalid profile data structure")
  }

  class ProfileContent {
    var profile: ProfileForm
    var loading: bool
    var error: string
    var message: string
    var showDeleteConfirm: bool
    /** Whether `signOut` has been called. */
    var signedOut: bool
    /** Every request sent so far, oldest first. */
    var sent: seq<ProfileCall>

    /** The state when the page mounts. */
    constructor ()
      ensures profile == ProfileForm("", "") && loading && error == "" && message == ""
      ensures !showDeleteConfirm && !signedOut && sent == []
    {
      profile := ProfileForm("", "");
      loading := true;
      error := "";
      message := "";
      showDeleteConfirm := false;
      signedOut := false;
      sent := [];
    }

    method SetName(name: string)
      modifies this
      ensures profile == old(profile).(name := name)
      ensures loading == old(loading) && error == old(error) && message == old(message)
      ensures showDeleteConfirm == old(showDeleteConfirm) && signedOut == old(signedOut) && sent == old(sent)
    {
      profile := profile.(name := name);
    }

    method SetEmail(email: string)
      modifies this
      ensures profile == old(profile).(email := email)
      ensures loading == old(loading) && error == old(error) && message == old(message)
      ensures showDeleteConfirm == old(showDeleteConfirm) && signedOut == old(signedOut) && sent == old(sent)
    {
      profile := profile.(email := email);
    }

    /**
     * `fetchProfile`. Without a user id it only reports the missing
     * authentication; without a token it clears the messages and reports
     * the missing token; neither sends anything. Otherwise one GET goes
     * out, `profile` changes only when the answer carries a profile, and a
     * failure is reported in `error`. Loading ends false in every case.
     */
    method FetchProfile(userId: Option<string>, attributesEmail: Option<string>, token: Option<string>,
                        reply: Reply<Option<ProfileData>>)
      modifies this
      ensures !loading
      ensures showDeleteConfirm == old(showDeleteConfirm) && signedOut == old(signedOut)
      ensures !Truthy(userId) ==>
        && error == "User not authenticated"
        && message == old(message) && profile == old(profile) && sent == old(sent)
      ensures Truthy(userId) ==>
        && message == ""
        && LoadResult(profile, error) == Loaded(old(profile), attributesEmail, token, reply)
        && sent == old(sent) + (if Truthy(token) then [GetProfile(token.value)] else [])
    {
      if !Truthy(userId) {
        error := "User not authenticated";
        loading := false;
        return;
      }
      loading := true;
      error := "";
      message := "";
      if !Truthy(token) {
        error := "Authentication token not found";
        loading := false;
        return;
      }
      sent := sent + [GetProfile(token.value)];
      match reply {
        case NotOk(status, text) =>
          error := FailureText("Failed to fetch profile", status, text);
        case Throw(m) =>
          error := JsOr(Some(m), "Failed to load profile");
        case Ok(data) =>
          if data.Some? {
            profile := LoadedForm(data.value, attributesEmail);
          } else {
            error := "Invalid profile data structure";
          }
      }
      loading := false;
    }

    /**
     * `handleUpdate`. Without a user id it only reports the missing
     * authentication, without a token it reports the missing token, and
     * neither sends anything. Otherwise the form goes out in one PUT; a
     * failure is reported in `error`, while a success sets `message` and
     * then refetches the profile, which clears `message` again.
     */
    method HandleUpdate(userId: Option<string>, token: Option<string>, reply: Reply<Option<string>>,
                        attributesEmail: Option<string>, refetchToken: Option<string>,
                        refetchReply: Reply<Option<ProfileData>>)
      modifies this
      ensures showDeleteConfirm == old(showDeleteConfirm) && signedOut == old(signedOut)
      ensures !Truthy(userId) ==>
        && error == "User not authenticated"
        && message == old(message) && profile == old(profile) && sent == old(sent) && loading == old(loading)
      ensures Truthy(userId) && !Truthy(token) ==>
        && error == "Authentication token not found" && message == ""
        && profile == old(profile) && sent == old(sent) && loading == old(loading)
      ensures Truthy(userId) && Truthy(token) ==>
        && |sent| >= |old(sent)| + 1
        && sent[..|old(sent)| + 1] == old(sent) + [PutProfile(token.value, old(profile))]
      ensures Truthy(userId) && Truthy(token) && !reply.Ok? ==>
        && sent == old(sent) + [PutProfile(token.value, old(profile))]
        && profile == old(profile) && message == "" && loading == old(loading)
        && error == if reply.NotOk? then FailureText("Failed to update profile", reply.status, reply.text)
                    else JsOr(Some(reply.message), "Failed to update profile")
      ensures Truthy(userId) && Truthy(token) && reply.Ok? ==>
        && message == "" && !loading
        && LoadResult(profile, error) == Loaded(old(profile), attributesEmail, refetchToken, refetchReply)
        && sent == old(sent) + [PutProfile(token.value, old(profile))]
                             + (if Truthy(refetchToken) then [GetProfile(refetchToken.value)] else [])
    {
      if !Truthy(userId) {
        error := "User not authenticated";
        return;
      }
      error := "";
      message := "";
      if !Truthy(token) {
        error := "Authentication token not found";
        return;
      }
      sent := sent + [PutProfile(token.value, profile)];
      match reply
      case NotOk(status, text) =>
        error := FailureText("Failed to update profile", status, text);
      case Throw(m) =>
        error := JsOr(Some(m), "Failed to update profile");
      case Ok(data) =>
        message := JsOr(data, "Profile updated successfully");
        FetchProfile(userId, attributesEmail, refetchToken, refetchReply);
    }

    /**
     * `handleDelete`. Without a token it reports the missing token and
     * sends nothing. Otherwise one DELETE goes out; only an ok answer sets
     * the message and signs the user out, and a failure is reported in
     * `error`.
     */
    method HandleDelete(token: Option<string>, reply: Reply<Option<string>>)
      modifies this
      ensures profile == old(profile) && loading == old(loading) && showDeleteConfirm == old(showDeleteConfirm)
      ensures signedOut <==> old(signedOut) || (Truthy(token) && reply.Ok?)
      ensures !Truthy(token) ==> error == "Authentication token not found" && message == "" && sent == old(sent)
      ensures Truthy(token) ==> sent == old(sent) + [DeleteProfile(token.value)]
      ensures Truthy(token) && reply.Ok? ==> error == "" && message == JsOr(reply.data, "Profile deleted successfully")
      ensures Truthy(token) && reply.NotOk? ==>
        message == "" && error == FailureText("Failed to delete profile", reply.status, reply.text)
      ensures Truthy(token) && reply.Throw? ==>
        message == "" && error == JsOr(Some(reply.message), "Failed to delete profile")
    {
      error := "";
      message := "";
      if !Truthy(token) {
        error := "Authentication token not found";
        return;
      }
      sent := sent + [DeleteProfile(token.value)];
      match reply
      case NotOk(status, text) =>
        error := FailureText("Failed to delete profile", status, text);
      case Throw(m) =>
        error := JsOr(Some(m), "Failed to delete profile");
      case Ok(data) =>
        message := JsOr(data, "Profile deleted successfully");
        signedOut := true;
    }

    /** The Delete Account button opens the confirmation dialog. */
    method RequestDelete()
      modifies this
      ensures showDeleteConfirm
      ensures profile == old(profile) && loading == old(loading) && error == old(error) && message == old(message)
      ensures signedOut == old(signedOut) && sent == old(sent)
    {
      showDeleteConfirm := true;
    }

    /** Cancel closes the dialog. */
    method CancelDelete()
      modifies this
      ensures !showDeleteConfirm
      ensures profile == old(profile) && loading == old(loading) && error == old(error) && message == old(message)
      ensures signedOut == old(signedOut) && sent == old(sent)
    {
      showDeleteConfirm := false;
    }

    /** The dialog's Delete button, which exists only while the dialog is open, runs `handleDelete`; the dialog stays open. */
    method ConfirmDelete(token: Option<string>, reply: Reply<Option<string>>)
      requires showDeleteConfirm
      modifies this
      ensures showDeleteConfirm
      ensures profile == old(profile) && loading == old(loading)
      ensures signedOut <==> old(signedOut) || (Truthy(token) && reply.Ok?)
      ensures !Truthy(token) ==> error == "Authentication token not found" && message == "" && sent == old(sent)
      ensures Truthy(token) ==> sent == old(sent) + [DeleteProfile(token.value)]
      ensures Truthy(token) && reply.Ok? ==> error == "" && message == JsOr(reply.data, "Profile deleted successfully")
      ensures Truthy(token) && reply.NotOk? ==>
        message == "" && error == FailureText("Failed to delete profile", reply.status, reply.text)
      ensures Truthy(token) && reply.Throw? ==>
        message == "" && error == JsOr(Some(reply.message), "Failed to delete profile")
    {
      HandleDelete(token, reply);
    }
  }
}
