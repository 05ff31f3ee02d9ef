/** The admin "Admin Profile" form: client-side checks in a fixed order,
    then a profile-update request. */
module ProfileEditor {
  import opened Options

  const Mismatch := "New passwords do not match."
  const NoUserId := "User ID not found. Please log in again."
  const Updated := "Profile updated successfully! Please log in again with new credentials."
  const UpdateFailed := "Failed to update profile. Check current password."

  const DefaultUsername := "admin"

  /** The update request; `newPassword` is None (`undefined`) when the field
      is empty. */
  datatype ProfileRequest = ProfileRequest(id: string, username: string, currentPassword: string, newPassword: Option<string>)

  /** The checks of `handleSubmit`, in order: a mismatch message when a new
      password is typed and differs from the confirmation, then a missing-id
      message when no user id is stored (absent or empty); None when both
      pass. */
  function Rejection(newPassword: string, confirmPassword: string, userId: Option<string>): (r: Option<string>)
    ensures newPassword != "" && newPassword != confirmPassword ==> r == Some(Mismatch)
    ensures newPassword == "" ==> r != Some(Mismatch)
    ensures r == Some(NoUserId) <==> (newPassword == "" || newPassword == confirmPassword) && (userId.None? || userId.value == "")
    ensures r.None? <==> (newPassword == "" || newPassword == confirmPassword) && userId.Some? && userId.value != ""
  {
    if newPassword != "" && newPassword != confirmPassword then Some(Mismatch)
    else if userId.None? || userId.value == "" then Some(NoUserId)
    else None
  }

  function MakeRequest(id: string, username: string, currentPassword: string, newPassword: string): (r: ProfileRequest)
    ensures r.id == id && r.username == username && r.currentPassword == currentPassword
    ensures r.newPassword.None? <==> newPassword == ""
    ensures r.newPassword.Some? ==> r.newPassword.value == newPassword
  {
    ProfileRequest(id, username, currentPassword, if newPassword == "" then None else Some(newPassword))
  }

  /** The message after a request as the handler is written: the client has
      no profile-update call, so invoking it throws before anything is sent
      and the catch always reports failure, whatever the server would say. */
  function OutcomeAsWritten(request: ProfileRequest, serverAccepts: bool): (message: string)
    ensures message == UpdateFailed
  {
    UpdateFailed
  }

  /** The message when the request reaches a server that answers. */
  function Outcome(serverAccepts: bool): (message: string)
    ensures message == Updated <==> serverAccepts
    ensures message == UpdateFailed <==> !serverAccepts
  {
    if serverAccepts then Updated else UpdateFailed
  }

  /** As written, even a request the server would accept ends in the failure
      message; with the call in place it ends in the success message. */
  lemma AcceptedRequestReportedAsFailure(request: ProfileRequest)
    ensures OutcomeAsWritten(request, true) != Outcome(true)
    ensures OutcomeAsWritten(request, true) == UpdateFailed
  {
  }

  class ProfileEditorState {
    var username: string
    var currentPassword: string
    var newPassword: string
    var confirmPassword: string
    var message: string
    var saving: bool

    constructor()
      ensures username == DefaultUsername && currentPassword == "" && newPassword == "" && confirmPassword == ""
      ensures message == "" && !saving
    {
      username := DefaultUsername;
      currentPassword := "";
      newPassword := "";
      confirmPassword := "";
      message := "";
      saving := false;
    }

    method SetFields(name: string, current: string, next: string, confirm: string)
      modifies this
      ensures username == name && currentPassword == current && newPassword == next && confirmPassword == confirm
      ensures message == old(message) && saving == old(saving)
    {
      username, currentPassword, newPassword, confirmPassword := name, current, next, confirm;
    }

    /** The form submits only while no save runs (`disabled={saving}`)
        and the `required` username and current password are filled. */
    predicate CanSubmit()
      reads this
    {
      !saving && username != "" && currentPassword != ""
    }

    /** `handleSubmit` up to the request. When the form cannot submit,
        nothing happens. Otherwise the message is cleared first; a failed
        check sets its message and sends nothing; otherwise saving is set
        and the request is built from the fields as typed. `userId` is the
        id of the user stored at login. */
    method BeginSubmit(userId: Option<string>) returns (request: Option<ProfileRequest>)
      modifies this
      ensures !old(CanSubmit()) ==> request.None? && message == old(message) && saving == old(saving)
      ensures old(CanSubmit()) ==>
        var rejected := Rejection(newPassword, confirmPassword, userId);
        && (rejected.Some? ==> request.None? && message == rejected.value && saving == old(saving))
        && (rejected.None? ==> request == Some(MakeRequest(userId.value, username, currentPassword, newPassword)) && message == "" && saving)
      ensures request.Some? ==> request.value.username != "" && request.value.currentPassword != ""
      ensures username == old(username) && currentPassword == old(currentPassword)
      ensures newPassword == old(newPassword) && confirmPassword == old(confirmPassword)
    {
      if !CanSubmit() {
        return None;
      }
      message := "";
      var rejected := Rejection(newPassword, confirmPassword, userId);
      if rejected.Some? {
        message := rejected.value;
        return None;
      }
      saving := true;
      request := Some(MakeRequest(userId.value, username, currentPassword, newPassword));
    }

    /** The end of `handleSubmit`, with the update call in place. */
    method SubmitSettled(serverAccepts: bool)
      modifies this
      ensures !saving && message == Outcome(serverAccepts)
      ensures username == old(username) && currentPassword == old(currentPassword)
      ensures newPassword == old(newPassword) && confirmPassword == old(confirmPassword)
    {
      message := Outcome(serverAccepts);
      saving := false;
    }
  }
}
