/** The entry forms of the older client (src/components/AddToolMoveForm.tsx and
    src/components/AddWeldForm.tsx), which insert rows into the hosted database directly. They
    offer every active location without dependent filtering, accept a photo of at most 5 MB,
    upload it under the user's folder and store its public URL with the row. The signed-in
    user, the clock's text and the answers of the storage and the database are parameters. */
module LegacyForms {
  import opened Common
  import opened Errors
  import opened LocationPicker
  import ClientForms

  const MaxPhotoSize := 5242880
  const PhotoTooLarge := "Photo size must be less than 5MB"
  const NotAuthenticated := "User not authenticated"

  /** A chosen file: its name and its size in bytes. */
  datatype File = File(name: string, size: nat)

  /** The signed-in user as `supabase.auth.getUser()` reports it. */
  datatype AuthUser = AuthUser(id: string, email: Option<string>)

  /** `name.split('.').pop()`: the text after the last dot, or the whole name when there is no
      dot. */
  function Extension(name: string): (ext: string)
    ensures '.' !in ext
    ensures |ext| <= |name| && ext == name[|name| - |ext|..]
    ensures '.' !in name ==> ext == name
    ensures '.' in name ==> |ext| < |name| && name[|name| - |ext| - 1] == '.'
  {
    SplitLast(name, '.');
    OccurrencesZero(name, '.');
    var parts := Split(name, '.');
    parts[|parts| - 1]
  }

  /** Whatever comes before the last dot, the extension is what follows it. */
  lemma ExtensionAfterDot(prefix: string, ext: string)
    requires '.' !in ext
    ensures Extension(prefix + "." + ext) == ext
  {
    var name := prefix + "." + ext;
    var e := Extension(name);
    assert name[|name| - |ext| - 1] == '.';
    assert '.' in name;
    assert name[|name| - |ext|..] == ext;
  }

  /** `${userId}/${Date.now()}.${fileExt}`; `stamp` is the clock's decimal text. */
  function UploadName(userId: string, stamp: string, name: string): (r: string)
    ensures |r| > |userId| && r[..|userId| + 1] == userId + "/"
  {
    userId + "/" + stamp + "." + Extension(name)
  }

  /** The stored file keeps the photo's extension. */
  lemma UploadKeepsExtension(userId: string, stamp: string, name: string)
    ensures Extension(UploadName(userId, stamp, name)) == Extension(name)
  {
    ExtensionAfterDot(userId + "/" + stamp, Extension(name));
  }

  /** The row `handleSubmit` inserts into `tool_moves`. */
  datatype MoveInsert = MoveInsert(
    reasonId: string, departmentId: Option<string>, lineId: Option<string>, stationId: Option<string>,
    notes: string, movedBy: string, userId: string, requiresWeldTouchup: bool,
    weldTouchupNotes: Option<string>, photoUrl: Option<string>)

  /** A location left empty is stored as null, and the touch-up notes only when a touch-up is
      required. */
  function MoveInsertOf(reasonId: string, s: Selection, notes: string, movedBy: string, userId: string,
                        requiresWeldTouchup: bool, weldTouchupNotes: string, photoUrl: Option<string>)
    : (r: MoveInsert)
    ensures r.reasonId == reasonId && r.notes == notes && r.movedBy == movedBy && r.userId == userId
    ensures r.departmentId == EmptyToNull(s.department) && r.lineId == EmptyToNull(s.line)
    ensures r.stationId == EmptyToNull(s.station)
    ensures r.requiresWeldTouchup == requiresWeldTouchup && r.photoUrl == photoUrl
    ensures requiresWeldTouchup ==> r.weldTouchupNotes == Some(weldTouchupNotes)
    ensures !requiresWeldTouchup ==> r.weldTouchupNotes == None
  {
    MoveInsert(reasonId, EmptyToNull(s.department), EmptyToNull(s.line), EmptyToNull(s.station), notes,
               movedBy, userId, requiresWeldTouchup, if requiresWeldTouchup then Some(weldTouchupNotes) else None,
               photoUrl)
  }

  /** The older and the current client send the same reason, locations, notes and touch-up
      fields for the same form. */
  lemma MoveInsertAgreesWithPayload(reasonId: string, s: Selection, notes: string, movedBy: string,
                                    userId: string, stored: Option<string>, requiresWeldTouchup: bool,
                                    weldTouchupNotes: string, photoUrl: Option<string>)
    ensures var row := MoveInsertOf(reasonId, s, notes, movedBy, userId, requiresWeldTouchup,
                                    weldTouchupNotes, photoUrl);
            var body := ClientForms.ToolMovePayload(reasonId, s, notes, movedBy, stored,
                                                    requiresWeldTouchup, weldTouchupNotes);
            && body.reason == Some(row.reasonId) && body.notes == Some(row.notes)
            && body.department == row.departmentId && body.line == row.lineId && body.station == row.stationId
            && body.weldTouchupNotes == row.weldTouchupNotes
            && (body.requiresWeldTouchup == Bool(true) <==> row.requiresWeldTouchup)
  {
  }

  /** The row `handleSubmit` inserts into `weld_touchups`. */
  datatype WeldInsert = WeldInsert(
    partNumber: string, departmentId: Option<string>, lineId: Option<string>, stationId: Option<string>,
    weldType: string, reason: string, notes: string, completedBy: string, status: string,
    photoUrl: Option<string>)

  function WeldInsertOf(partNumber: string, s: Selection, weldType: string, reason: string, notes: string,
                        completedBy: string, status: string, photoUrl: Option<string>)
    : (r: WeldInsert)
    ensures r.partNumber == partNumber && r.weldType == weldType && r.reason == reason
    ensures r.departmentId == EmptyToNull(s.department) && r.lineId == EmptyToNull(s.line)
    ensures r.stationId == EmptyToNull(s.station)
    ensures r.notes == notes && r.completedBy == completedBy && r.status == status && r.photoUrl == photoUrl
  {
    WeldInsert(partNumber, EmptyToNull(s.department), EmptyToNull(s.line), EmptyToNull(s.station), weldType,
               reason, notes, completedBy, status, photoUrl)
  }

  /** A reason in the older weld form's dropdown; its option's value is the name. */
  datatype ReasonRow = ReasonRow(id: string, name: string)

  /** The statuses the older weld form's dropdown offers. */
  const StatusOptions := ["pending", "in_progress", "completed"]

  /** How a submission ended: what was uploaded, what was inserted, and the error shown. */
  datatype Submission<T> = Submission(upload: Option<string>, inserted: Option<T>, error: Option<string>)

  /** The common tail of both forms' `handleSubmit`: without a user nothing is uploaded or
      inserted; with a photo the upload comes first, and its failure stops the insert; the
      insert's failure is reported after the row was sent. Every failure is shown through
      `getErrorMessage`. */
  function Submitting<T>(user: Option<AuthUser>, photo: Option<File>, stamp: string,
                         uploadError: Option<Thrown>, publicUrl: string, insertError: Option<Thrown>,
                         row: Option<string> -> T)
    : (r: Submission<T>)
    ensures user.None? ==> r == Submission(None, None, Some(NotAuthenticated))
    ensures user.Some? && photo.Some? ==> r.upload == Some(UploadName(user.value.id, stamp, photo.value.name))
    ensures user.Some? && photo.None? ==> r.upload == None
    ensures user.Some? && photo.Some? && uploadError.Some? ==>
              r.inserted == None && r.error == Some(ErrorMessage(uploadError.value))
    ensures user.Some? && photo.Some? && uploadError.None? ==> r.inserted == Some(row(Some(publicUrl)))
    ensures user.Some? && photo.None? ==> r.inserted == Some(row(None))
    ensures user.Some? && (photo.None? || uploadError.None?) ==>
              r.error == (if insertError.Some? then Some(ErrorMessage(insertError.value)) else None)
  {
    if user.None? then
      assert |NotAuthenticated| > 0;
      Submission(None, None, Some(ErrorMessage(ErrorObject(NotAuthenticated))))
    else
      var upload := if photo.Some? then Some(UploadName(user.value.id, stamp, photo.value.name)) else None;
      if photo.Some? && uploadError.Some? then Submission(upload, None, Some(ErrorMessage(uploadError.value)))
      else
        var url := if photo.Some? then Some(publicUrl) else None;
        Submission(upload, Some(row(url)), if insertError.Some? then Some(ErrorMessage(insertError.value)) else None)
  }

  /** A row reaches the database only for a signed-in user, and never when the photo's upload
      failed. */
  lemma InsertNeedsUserAndUpload<T>(user: Option<AuthUser>, photo: Option<File>, stamp: string,
                                    uploadError: Option<Thrown>, publicUrl: string,
                                    insertError: Option<Thrown>, row: Option<string> -> T)
    ensures var r := Submitting(user, photo, stamp, uploadError, publicUrl, insertError, row);
            r.inserted.Some? <==> user.Some? && (photo.None? || uploadError.None?)
    ensures var r := Submitting(user, photo, stamp, uploadError, publicUrl, insertError, row);
            r.error == None <==> user.Some? && (photo.None? || uploadError.None?) && insertError.None?
  {
    if user.Some? && photo.Some? && uploadError.Some? {
      EmptyOnlyForEmptyText(uploadError.value);
    }
  }

  function MoveRow(reasonId: string, s: Selection, notes: string, movedBy: string, userId: string,
                   requiresWeldTouchup: bool, weldTouchupNotes: string): Option<string> -> MoveInsert
  {
    (url: Option<string>) => MoveInsertOf(reasonId, s, notes, movedBy, userId, requiresWeldTouchup,
                                          weldTouchupNotes, url)
  }

  function WeldRow(partNumber: string, s: Selection, weldType: string, reason: string, notes: string,
                   completedBy: string, status: string): Option<string> -> WeldInsert
  {
    (url: Option<string>) => WeldInsertOf(partNumber, s, weldType, reason, notes, completedBy, status, url)
  }

  class ToolMoveForm {
    var reasonId: string
    var selection: Selection
    var notes: string
    var movedBy: string
    var requiresWeldTouchup: bool
    var weldTouchupNotes: string
    var loading: bool
    var error: Option<string>
    var showScanner: bool
    var showCamera: bool
    var photo: Option<File>

    constructor ()
      ensures reasonId == "" && selection == NothingSelected && notes == "" && movedBy == ""
      ensures !requiresWeldTouchup && weldTouchupNotes == "" && !loading && error == None
      ensures !showScanner && !showCamera && photo == None
    {
      reasonId, selection, notes, movedBy := "", NothingSelected, "", "";
      requiresWeldTouchup, weldTouchupNotes, loading, error := false, "", false, None;
      showScanner, showCamera, photo := false, false, None;
    }

    /** `fetchCurrentUser`: the mover becomes the user's email when there is one. */
    method LoadCurrentUser(user: Option<AuthUser>)
      modifies this
      ensures user.Some? && Present(user.value.email) ==> movedBy == user.value.email.value
      ensures !(user.Some? && Present(user.value.email)) ==> movedBy == old(movedBy)
      ensures reasonId == old(reasonId) && selection == old(selection) && notes == old(notes)
      ensures requiresWeldTouchup == old(requiresWeldTouchup) && weldTouchupNotes == old(weldTouchupNotes)
      ensures loading == old(loading) && error == old(error) && showScanner == old(showScanner)
      ensures showCamera == old(showCamera) && photo == old(photo)
    {
      if user.Some? && Present(user.value.email) {
        movedBy := user.value.email.value;
      }
    }

    /** `handleQRScan`: the supplied fields replace the form's; nothing resets a child here. */
    method HandleQRScan(data: ScanData)
      modifies this
      ensures selection == ScanWrites(old(selection), data)
      ensures Present(data.note) ==> notes == data.note.value
      ensures !Present(data.note) ==> notes == old(notes)
      ensures !showScanner
      ensures reasonId == old(reasonId) && movedBy == old(movedBy)
      ensures requiresWeldTouchup == old(requiresWeldTouchup) && weldTouchupNotes == old(weldTouchupNotes)
      ensures loading == old(loading) && error == old(error) && showCamera == old(showCamera) && photo == old(photo)
    {
      selection := ScanWrites(selection, data);
      notes := OrElse(data.note, notes);
      showScanner := false;
    }

    /** `handlePhotoChange`: a file over the limit is refused with a message and the current
        photo stays; a file within it becomes the photo. */
    method HandlePhotoChange(file: Option<File>)
      modifies this
      ensures file.Some? && file.value.size > MaxPhotoSize ==> error == Some(PhotoTooLarge) && photo == old(photo)
      ensures file.Some? && file.value.size <= MaxPhotoSize ==> photo == file && error == old(error)
      ensures file.None? ==> photo == old(photo) && error == old(error)
      ensures photo.Some? ==> old(photo) == photo || photo.value.size <= MaxPhotoSize
      ensures reasonId == old(reasonId) && selection == old(selection) && notes == old(notes)
      ensures movedBy == old(movedBy) && requiresWeldTouchup == old(requiresWeldTouchup)
      ensures weldTouchupNotes == old(weldTouchupNotes) && loading == old(loading)
      ensures showScanner == old(showScanner) && showCamera == old(showCamera)
    {
      if file.Some? {
        if file.value.size > MaxPhotoSize {
          error := Some(PhotoTooLarge);
          return;
        }
        photo := file;
      }
    }

    /** `handleCameraCapture`: a captured picture becomes the photo without a size check. */
    method HandleCameraCapture(file: File)
      modifies this
      ensures photo == Some(file) && !showCamera
      ensures reasonId == old(reasonId) && selection == old(selection) && notes == old(notes)
      ensures movedBy == old(movedBy) && requiresWeldTouchup == old(requiresWeldTouchup)
      ensures weldTouchupNotes == old(weldTouchupNotes) && loading == old(loading) && error == old(error)
      ensures showScanner == old(showScanner)
    {
      photo := Some(file);
      showCamera := false;
    }

    /** `handleSubmit`: nothing happens while no reason is chosen; otherwise the outcome is
        that of `Submitting` on this form's row, and its error is shown. */
    method Submit(user: Option<AuthUser>, stamp: string, uploadError: Option<Thrown>, publicUrl: string,
                  insertError: Option<Thrown>)
      returns (r: Option<Submission<MoveInsert>>)
      modifies this
      ensures old(reasonId) == "" ==> r == None && error == old(error) && loading == old(loading)
      ensures old(reasonId) != "" ==>
                && r == Some(Submitting(user, photo, stamp, uploadError, publicUrl, insertError,
                                        MoveRow(reasonId, selection, notes, movedBy,
                                                if user.Some? then user.value.id else "",
                                                requiresWeldTouchup, weldTouchupNotes)))
                && error == r.value.error && !loading
      ensures reasonId == old(reasonId) && selection == old(selection) && notes == old(notes)
      ensures movedBy == old(movedBy) && requiresWeldTouchup == old(requiresWeldTouchup)
      ensures weldTouchupNotes == old(weldTouchupNotes) && photo == old(photo)
      ensures showScanner == old(showScanner) && showCamera == old(showCamera)
    {
      if reasonId == "" {
        return None;
      }
      loading := true;
      error := None;
      var userId := if user.Some? then user.value.id else "";
      var outcome := Submitting(user, photo, stamp, uploadError, publicUrl, insertError,
                                MoveRow(reasonId, selection, notes, movedBy, userId,
                                        requiresWeldTouchup, weldTouchupNotes));
      error := outcome.error;
      loading := false;
      r := Some(outcome);
    }
  }

  class WeldForm {
    var partNumber: string
    var selection: Selection
    var weldType: string
    var reason: string
    var notes: string
    var completedBy: string
    var status: string
    var loading: bool
    var error: Option<string>
    var showScanner: bool
    var showCamera: bool
    var photo: Option<File>

    /** The status is one the dropdown offers. */
    predicate Valid()
      reads this
    {
      status in StatusOptions
    }

    constructor ()
      ensures Valid() && status == "pending"
      ensures partNumber == "" && selection == NothingSelected && weldType == "" && reason == ""
      ensures notes == "" && completedBy == "" && !loading && error == None
      ensures !showScanner && !showCamera && photo == None
    {
      partNumber, selection, weldType, reason, notes := "", NothingSelected, "", "", "";
      completedBy, status, loading, error := "", "pending", false, None;
      showScanner, showCamera, photo := false, false, None;
    }

    /** `fetchCurrentUser`: the completer becomes the user's email when there is one. */
    method LoadCurrentUser(user: Option<AuthUser>)
      modifies this
      ensures user.Some? && Present(user.value.email) ==> completedBy == user.value.email.value
      ensures !(user.Some? && Present(user.value.email)) ==> completedBy == old(completedBy)
      ensures partNumber == old(partNumber) && selection == old(selection) && weldType == old(weldType)
      ensures reason == old(reason) && notes == old(notes) && status == old(status)
      ensures loading == old(loading) && error == old(error) && showScanner == old(showScanner)
      ensures showCamera == old(showCamera) && photo == old(photo)
    {
      if user.Some? && Present(user.value.email) {
        completedBy := user.value.email.value;
      }
    }

    /** The reason dropdown: an option's value is the reason's name, so the name becomes the
        weld's reason. */
    method SelectReason(option: ReasonRow)
      modifies this
      ensures reason == option.name
      ensures partNumber == old(partNumber) && selection == old(selection) && weldType == old(weldType)
      ensures notes == old(notes) && completedBy == old(completedBy) && status == old(status)
      ensures loading == old(loading) && error == old(error) && showScanner == old(showScanner)
      ensures showCamera == old(showCamera) && photo == old(photo)
    {
      reason := option.name;
    }

    /** The status dropdown. */
    method SelectStatus(choice: string)
      requires choice in StatusOptions
      modifies this
      ensures status == choice && Valid()
      ensures partNumber == old(partNumber) && selection == old(selection) && weldType == old(weldType)
      ensures reason == old(reason) && notes == old(notes) && completedBy == old(completedBy)
      ensures loading == old(loading) && error == old(error) && showScanner == old(showScanner)
      ensures showCamera == old(showCamera) && photo == old(photo)
    {
      status := choice;
    }

    method HandleQRScan(data: ScanData)
      modifies this
      ensures selection == ScanWrites(old(selection), data)
      ensures Present(data.note) ==> notes == data.note.value
      ensures !Present(data.note) ==> notes == old(notes)
      ensures !showScanner
      ensures partNumber == old(partNumber) && weldType == old(weldType) && reason == old(reason)
      ensures completedBy == old(completedBy) && status == old(status)
      ensures loading == old(loading) && error == old(error) && showCamera == old(showCamera) && photo == old(photo)
    {
      selection := ScanWrites(selection, data);
      notes := OrElse(data.note, notes);
      showScanner := false;
    }

    method HandlePhotoChange(file: Option<File>)
      modifies this
      ensures file.Some? && file.value.size > MaxPhotoSize ==> error == Some(PhotoTooLarge) && photo == old(photo)
      ensures file.Some? && file.value.size <= MaxPhotoSize ==> photo == file && error == old(error)
      ensures file.None? ==> photo == old(photo) && error == old(error)
      ensures partNumber == old(partNumber) && selection == old(selection) && weldType == old(weldType)
      ensures reason == old(reason) && notes == old(notes) && completedBy == old(completedBy)
      ensures status == old(status) && loading == old(loading)
      ensures showScanner == old(showScanner) && showCamera == old(showCamera)
    {
      if file.Some? {
        if file.value.size > MaxPhotoSize {
          error := Some(PhotoTooLarge);
          return;
        }
        photo := file;
      }
    }

    /** `handleCameraCapture`: as in the tool-move form, a captured picture becomes the photo
        without the size check that `HandlePhotoChange` applies, and the camera closes. */
    method HandleCameraCapture(file: File)
      modifies this
      ensures photo == Some(file) && !showCamera
      ensures partNumber == old(partNumber) && selection == old(selection) && weldType == old(weldType)
      ensures reason == old(reason) && notes == old(notes) && completedBy == old(completedBy)
      ensures status == old(status) && loading == old(loading) && error == old(error)
      ensures showScanner == old(showScanner)
    {
      photo := Some(file);
      showCamera := false;
    }

    /** `handleSubmit`: nothing happens while the part number, the weld type or the reason is
        empty; otherwise the outcome is that of `Submitting` on this form's row. */
    method Submit(user: Option<AuthUser>, stamp: string, uploadError: Option<Thrown>, publicUrl: string,
                  insertError: Option<Thrown>)
      returns (r: Option<Submission<WeldInsert>>)
      modifies this
      ensures old(partNumber) == "" || old(weldType) == "" || old(reason) == "" ==>
                r == None && error == old(error) && loading == old(loading)
      ensures old(partNumber) != "" && old(weldType) != "" && old(reason) != "" ==>
                && r == Some(Submitting(user, photo, stamp, uploadError, publicUrl, insertError,
                                        WeldRow(partNumber, selection, weldType, reason, notes,
                                                completedBy, status)))
                && error == r.value.error && !loading
      ensures partNumber == old(partNumber) && selection == old(selection) && weldType == old(weldType)
      ensures reason == old(reason) && notes == old(notes) && completedBy == old(completedBy)
      ensures status == old(status) && photo == old(photo)
      ensures showScanner == old(showScanner) && showCamera == old(showCamera)
    {
      if partNumber == "" || weldType == "" || reason == "" {
        return None;
      }
      loading := true;
      error := None;
      var outcome := Submitting(user, photo, stamp, uploadError, publicUrl, insertError,
                                WeldRow(partNumber, selection, weldType, reason, notes, completedBy, status));
      error := outcome.error;
      loading := false;
      r := Some(outcome);
    }
  }
}
