/**
 * The role dialog (components/admin/RoleDialog.tsx): the two selectable
 * roles, the guard and reset around the awaited `onUpdate`, and the rule that
 * disables the Update button.
 */
module RoleDialog {
  import opened Wrappers
  import opened Entities

  /** One call of `onUpdate(userId, role)`. */
  datatype RoleCall = RoleCall(userId: string, role: string)

  datatype RoleOption = RoleOption(value: string, caption: string, description: string)

  /** `roleOptions`: User, then Administrator. */
  const RoleOptions: seq<RoleOption> := [
    RoleOption(UserRole, "User", "Can create and manage their own tickets"),
    RoleOption(AdminRole, "Administrator", "Full access to all tickets and admin features")]

  /** The only roles the dialog can select are `user` and `admin`. */
  lemma RoleOptionValues()
    ensures |RoleOptions| == 2
    ensures forall o :: o in RoleOptions ==> o.value == UserRole || o.value == AdminRole
  {
  }

  /** The Update button's `disabled`: nothing selected, a call in flight, or the selection is the user's current role. */
  predicate UpdateDisabled(selectedRole: string, loading: bool, user: Option<User>) {
    selectedRole == "" || loading || (user.Some? && selectedRole == user.value.role)
  }

  class RoleDialogState {
    /** The `user` prop. */
    var user: Option<User>
    var selectedRole: string
    var loading: bool

    /** The selection is empty or one of the offered roles. */
    ghost predicate Valid()
      reads this
    {
      selectedRole == "" || selectedRole == UserRole || selectedRole == AdminRole
    }

    constructor (user: Option<User>)
      ensures this.user == user && selectedRole == "" && !loading
      ensures Valid()
    {
      this.user := user;
      selectedRole, loading := "", false;
    }

    /** Clicking the `i`-th role option selects its value. */
    method ChooseRole(i: int)
      requires 0 <= i < |RoleOptions|
      requires Valid()
      modifies this
      ensures selectedRole == RoleOptions[i].value
      ensures user == old(user) && loading == old(loading)
      ensures Valid()
    {
      selectedRole := RoleOptions[i].value;
    }

    /**
     * `handleUpdate` up to the `await`: with no role selected or no user,
     * nothing is issued and nothing changes; otherwise loading is switched on
     * and `onUpdate(user.id, selectedRole)` is issued.
     */
    method BeginUpdate() returns (call: Option<RoleCall>)
      requires Valid()
      modifies this
      ensures call.None? <==> old(selectedRole) == "" || user.None?
      ensures call.Some? ==> call.value == RoleCall(user.value.id, selectedRole) && loading
      ensures call.Some? ==> call.value.role == UserRole || call.value.role == AdminRole
      ensures call.None? ==> loading == old(loading)
      ensures user == old(user) && selectedRole == old(selectedRole)
      ensures Valid()
    {
      if selectedRole == "" || user.None? {
        return None;
      }
      loading := true;
      call := Some(RoleCall(user.value.id, selectedRole));
    }

    /** `handleUpdate` after the `await`: the selection is cleared only on success; loading ends either way. */
    method FinishUpdate(succeeded: bool)
      requires Valid()
      modifies this
      ensures selectedRole == (if succeeded then "" else old(selectedRole))
      ensures !loading && user == old(user)
      ensures Valid()
    {
      if succeeded {
        selectedRole := "";
      }
      loading := false;
    }

    /**
     * The whole `handleUpdate`: at most one call, with a role the dialog
     * offers; when the Update button is enabled the call always changes the
     * user's role; afterwards loading is off.
     */
    method HandleUpdate(succeeded: bool) returns (call: Option<RoleCall>)
      requires Valid()
      modifies this
      ensures call.None? <==> old(selectedRole) == "" || user.None?
      ensures call.Some? ==> call.value == RoleCall(user.value.id, old(selectedRole))
      ensures !UpdateDisabled(old(selectedRole), old(loading), user) && user.Some? ==>
                call.Some? && call.value.role != user.value.role
      ensures call.Some? ==> call.value.role == UserRole || call.value.role == AdminRole
      ensures call.Some? ==> !loading && selectedRole == (if succeeded then "" else old(selectedRole))
      ensures call.None? ==> loading == old(loading) && selectedRole == old(selectedRole)
      ensures user == old(user)
      ensures Valid()
    {
      call := BeginUpdate();
      if call.Some? {
        FinishUpdate(succeeded);
      }
    }
  }
}
