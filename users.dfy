/** The admin's user-management dialog: the add-user form and the change-password dialog. */
module Users {
  import opened Common
  import opened Context

  const FillAllFields := "Please fill in all fields"
  const AddFailed := "Failed to add user"
  const EnterPassword := "Please enter a new password"
  const PasswordChanged := "Password changed successfully"
  const PasswordChangeFailed := "Failed to change password"

  /** The add-user form as it starts and as it is reset: empty, role creator. */
  const BlankForm := NewUser("", "", "creator", "")

  /** The form may be sent only with a username, a password and a name. */
  predicate Complete(form: NewUser) {
    form.username != "" && form.password != "" && form.name != ""
  }

  class UserManagement {
    var newUser: NewUser
    var error: string
    var passwordChangeUserId: Option<string>
    var newPassword: string
    var passwordError: string
    var confirmationMessage: Option<Message>

    constructor ()
      ensures newUser == BlankForm && !Complete(newUser) && error == ""
      ensures passwordChangeUserId == None && newPassword == "" && passwordError == ""
      ensures confirmationMessage == None
    {
      newUser := BlankForm;
      error := "";
      passwordChangeUserId := None;
      newPassword := "";
      passwordError := "";
      confirmationMessage := None;
    }

    /** `handleAddUser`: an incomplete form sets an error and sends nothing; a successful
        add resets the form and the error; a failed add keeps the form. */
    method HandleAddUser(store: BlogStore, write: Response<()>, refetch: Response<seq<User>>) returns (called: bool)
      modifies this`newUser, this`error, store
      ensures called <==> Complete(old(newUser))
      ensures !called ==> error == FillAllFields && newUser == old(newUser) && store.State() == old(store.State())
      ensures called ==> store.State() == UserWriteStep(old(store.State()), write, refetch).0
      ensures called && write.Ok? ==> newUser == BlankForm && error == ""
      ensures called && write.Err? ==> newUser == old(newUser) && error == AddFailed
    {
      if newUser.username == "" || newUser.password == "" || newUser.name == "" {
        error := FillAllFields;
        return false;
      }
      called := true;
      var threw := store.AddUser(newUser, write, refetch);
      if !threw {
        newUser := BlankForm;
        error := "";
      } else {
        error := AddFailed;
      }
    }

    /** The key button of a user row opens the dialog when the user has an id. */
    method OpenPasswordDialog(userId: Option<string>)
      modifies this`passwordChangeUserId
      ensures passwordChangeUserId == if Truthy(userId) then userId else old(passwordChangeUserId)
    {
      if userId.Some? && userId.value != "" {
        passwordChangeUserId := userId;
      }
    }

    method ClosePasswordDialog()
      modifies this`passwordChangeUserId
      ensures passwordChangeUserId == None
    {
      passwordChangeUserId := None;
    }

    /** The trash button of a user row: `deleteUser` for a user with an id. */
    method HandleDeleteUser(store: BlogStore, userId: Option<string>, write: Response<()>,
                            refetch: Response<seq<User>>) returns (called: bool, threw: bool)
      modifies store
      ensures called <==> Truthy(userId)
      ensures !called ==> store.State() == old(store.State()) && !threw
      ensures called ==> (store.State(), threw) == UserWriteStep(old(store.State()), write, refetch)
    {
      called, threw := false, false;
      if userId.Some? && userId.value != "" {
        called := true;
        threw := store.DeleteUser(userId.value, write, refetch);
      }
    }

    /** `handleChangePassword`: an empty password sets an error and sends nothing; with no
        open dialog nothing happens; success closes the dialog, failure keeps it open. */
    method HandleChangePassword(store: BlogStore, write: Response<()>) returns (called: bool)
      modifies this`passwordChangeUserId, this`newPassword, this`passwordError, this`confirmationMessage
      ensures called <==> old(newPassword) != "" && Truthy(old(passwordChangeUserId))
      ensures old(newPassword) == "" ==>
        passwordError == EnterPassword && passwordChangeUserId == old(passwordChangeUserId) &&
        newPassword == old(newPassword) && confirmationMessage == old(confirmationMessage)
      ensures old(newPassword) != "" && !called ==>
        passwordError == old(passwordError) && passwordChangeUserId == old(passwordChangeUserId) &&
        newPassword == old(newPassword) && confirmationMessage == old(confirmationMessage)
      ensures called && write.Ok? ==>
        passwordChangeUserId == None && newPassword == "" && passwordError == "" &&
        confirmationMessage == Some(Message(PasswordChanged, Success))
      ensures called && write.Err? ==>
        passwordChangeUserId == old(passwordChangeUserId) && newPassword == old(newPassword) &&
        passwordError == PasswordChangeFailed && confirmationMessage == Some(Message(PasswordChangeFailed, Error))
    {
      if newPassword == "" {
        passwordError := EnterPassword;
        return false;
      }
      called := false;
      if passwordChangeUserId.Some? && passwordChangeUserId.value != "" {
        called := true;
        var threw := store.ChangeUserPassword(passwordChangeUserId.value, newPassword, write);
        if !threw {
          confirmationMessage := Some(Message(PasswordChanged, Success));
          passwordChangeUserId := None;
          newPassword := "";
          passwordError := "";
        } else {
          confirmationMessage := Some(Message(PasswordChangeFailed, Error));
          passwordError := PasswordChangeFailed;
        }
      }
    }
  }
}
