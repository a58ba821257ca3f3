/** The user-profile screen of the current client (frontend/src/components/UsersView.tsx). It
    lists the `profiles` rows ordered by email, edits a user's full name and role in place, and
    deletes profiles other than the signed-in user's own. Each request's answer is a parameter;
    after a save or a delete the local list is changed to match instead of fetching again. */
module UsersView {
  import opened Common
  import opened Collections

  /** A `profiles` row: `id, email, full_name, role`. */
  datatype Profile = Profile(id: Id, email: string, fullName: Option<string>, role: Option<string>)

  function ProfileId(p: Profile): Id { p.id }

  const SelfDeleteAlert := "You cannot delete your own user profile."

  /** The value `saveUser` stores for one edited field: `text.trim() || null`. */
  function Stored(text: string): (r: Option<string>)
    ensures r == None <==> Trim(text) == ""
    ensures r.Some? ==> r.value == Trim(text) && Trim(r.value) == r.value
  {
    TrimClean(Trim(text));
    EmptyToNull(Trim(text))
  }

  /** `{ ...user, full_name, role }` with both fields as stored. */
  function Edited(fullName: string, role: string): Profile -> Profile
  {
    (p: Profile) => p.(fullName := Stored(fullName), role := Stored(role))
  }

  /** `user.full_name || ''`: what the edit box shows for a stored field. */
  function Shown(field: Option<string>): (r: string)
    ensures field.Some? ==> r == field.value
    ensures field.None? ==> r == ""
  {
    OrElse(field, "")
  }

  /** Saving a field and opening the editor again shows the typed text trimmed. */
  lemma SaveThenEditShowsTrimmed(text: string)
    ensures Shown(Stored(text)) == Trim(text)
  {
  }

  /** Saving again what the editor shows for a saved field stores the same value. */
  lemma ResaveKeepsField(text: string)
    ensures Stored(Shown(Stored(text))) == Stored(text)
  {
    if Trim(text) != "" {
      TrimClean(Trim(text));
    }
  }

  /** After a save, looking the user up finds the same id and email with the stored fields;
      nobody else changes. */
  lemma SaveChangesOnlyThatUser(users: seq<Profile>, userId: Id, fullName: string, role: string, i: nat)
    requires i < |users|
    ensures var after := UpdateBy(users, ProfileId, userId, Edited(fullName, role));
            && |after| == |users|
            && (users[i].id != userId ==> after[i] == users[i])
            && (users[i].id == userId ==>
                  && after[i].id == users[i].id && after[i].email == users[i].email
                  && after[i].fullName == Stored(fullName) && after[i].role == Stored(role))
  {
  }

  /** Removing a profile keeps every other one, in order. */
  lemma DeleteRemovesOnlyThatUser(users: seq<Profile>, userId: Id, p: Profile)
    ensures var after := RemoveBy(users, ProfileId, userId);
            && (p in after <==> p in users && p.id != userId)
            && Subsequence(after, users)
  {
  }

  class UsersView {
    const currentUserId: Id
    var users: seq<Profile>
    var loading: bool
    var savingId: Option<Id>
    var deletingId: Option<Id>
    var editingId: Option<Id>
    var editFullName: string
    var editRole: string

    /** Nothing listed yet, the spinner on, nobody being edited. */
    constructor (currentUserId: Id)
      ensures this.currentUserId == currentUserId
      ensures users == [] && loading && savingId == None && deletingId == None
      ensures editingId == None && editFullName == "" && editRole == ""
    {
      this.currentUserId := currentUserId;
      users, loading, savingId, deletingId := [], true, None, None;
      editingId, editFullName, editRole := None, "", "";
    }

    /** `fetchUsers`: the rows (none for a null answer); an error keeps the old list. The
        spinner stops either way. */
    method FetchUsers(q: Query<Profile>)
      modifies this
      ensures q.Rows? ==> users == q.RowsOr()
      ensures q.QueryFailed? ==> users == old(users)
      ensures !loading
      ensures savingId == old(savingId) && deletingId == old(deletingId)
      ensures editingId == old(editingId) && editFullName == old(editFullName) && editRole == old(editRole)
    {
      if q.Rows? {
        users := q.RowsOr();
      }
      loading := false;
    }

    /** `beginEdit`: the user is being edited, with their stored fields in the boxes. */
    method BeginEdit(user: Profile)
      modifies this
      ensures editingId == Some(user.id)
      ensures editFullName == Shown(user.fullName) && editRole == Shown(user.role)
      ensures users == old(users) && loading == old(loading)
      ensures savingId == old(savingId) && deletingId == old(deletingId)
    {
      editingId, editFullName, editRole := Some(user.id), Shown(user.fullName), Shown(user.role);
    }

    /** `cancelEdit`: nobody is being edited and both boxes are empty. */
    method CancelEdit()
      modifies this
      ensures editingId == None && editFullName == "" && editRole == ""
      ensures users == old(users) && loading == old(loading)
      ensures savingId == old(savingId) && deletingId == old(deletingId)
    {
      editingId, editFullName, editRole := None, "", "";
    }

    /** `saveUser`. `error` is what the update reported. On success the user with that id
        gets the trimmed fields (null for blank) and editing ends; on failure nothing but the
        saving marker changes, and that is cleared either way. */
    method SaveUser(userId: Id, error: Option<string>)
      modifies this
      ensures error.None? ==> users == UpdateBy(old(users), ProfileId, userId, Edited(old(editFullName), old(editRole)))
      ensures error.None? ==> editingId == None && editFullName == "" && editRole == ""
      ensures error.Some? ==> users == old(users) && editingId == old(editingId)
      ensures error.Some? ==> editFullName == old(editFullName) && editRole == old(editRole)
      ensures savingId == None && loading == old(loading) && deletingId == old(deletingId)
    {
      savingId := Some(userId);
      if error.None? {
        users := UpdateBy(users, ProfileId, userId, Edited(editFullName, editRole));
        CancelEdit();
      }
      savingId := None;
    }

    /** `deleteUser`. The signed-in user's own profile is refused with an alert; a declined
        confirmation or a failed delete changes nothing. A delete that succeeds drops the
        profiles with that id and ends editing when that user was being edited. */
    method DeleteUser(userId: Id, confirmed: bool, error: Option<string>) returns (alert: Option<string>)
      modifies this
      ensures userId == currentUserId ==> alert == Some(SelfDeleteAlert)
      ensures userId != currentUserId ==> alert == None
      ensures userId == currentUserId || !confirmed || error.Some? ==>
                users == old(users) && editingId == old(editingId)
                && editFullName == old(editFullName) && editRole == old(editRole)
      ensures userId != currentUserId && confirmed && error.None? ==>
                users == RemoveBy(old(users), ProfileId, userId)
      ensures userId != currentUserId && confirmed && error.None? && old(editingId) == Some(userId) ==>
                editingId == None && editFullName == "" && editRole == ""
      ensures userId != currentUserId && confirmed && error.None? && old(editingId) != Some(userId) ==>
                editingId == old(editingId) && editFullName == old(editFullName) && editRole == old(editRole)
      ensures deletingId == (if userId == currentUserId || !confirmed then old(deletingId) else None)
      ensures savingId == old(savingId) && loading == old(loading)
    {
      if userId == currentUserId {
        return Some(SelfDeleteAlert);
      }
      alert := None;
      if !confirmed {
        return;
      }
      deletingId := Some(userId);
      if error.None? {
        users := RemoveBy(users, ProfileId, userId);
        if editingId == Some(userId) {
          CancelEdit();
        }
      }
      deletingId := None;
    }
  }
}
