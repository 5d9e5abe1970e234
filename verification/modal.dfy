/**
 * The track form modal: whether it is shown, the copy of the track being edited,
 * whether a submission is in progress and the form's error message. The submit handler
 * is abstract; its settled outcome is an input.
 */
module Modal {
  import opened Wrappers
  import opened TrackApi

  const EditTitle := "Edit Track"
  const CreateTitle := "Add New Track"

  /** How the awaited submit handler settled: resolved, or threw with a message. */
  datatype SubmitOutcome = Resolved | Threw(message: string)

  class TrackModal {
    var showModal: bool
    /** A value copy of the track being edited; `None` when creating. */
    var editingTrack: Option<Track>
    var formLoading: bool
    var formError: string

    predicate IsEditing()
      reads this
    {
      editingTrack.Some?
    }

    /** The heading of the modal, decided by whether a track is being edited. */
    function ModalTitle(): (title: string)
      reads this
      ensures title == EditTitle <==> IsEditing()
      ensures title == CreateTitle <==> !IsEditing()
    {
      if IsEditing() then EditTitle else CreateTitle
    }

    /** Advisory only: nothing in the modal consults it before closing. */
    predicate CanCloseModal()
      reads this
    {
      !formLoading
    }

    /** Hidden, nothing being edited, no error, not loading. */
    predicate IsClosed()
      reads this
    {
      !showModal && editingTrack == None && formError == "" && !formLoading
    }

    constructor ()
      ensures IsClosed()
    {
      showModal, editingTrack, formLoading, formError := false, None, false, "";
    }

    method OpenCreateModal()
      modifies this
      ensures showModal && editingTrack == None && formError == "" && !formLoading
      ensures !IsEditing() && ModalTitle() == CreateTitle && CanCloseModal()
    {
      editingTrack := None;
      formError := "";
      formLoading := false;
      showModal := true;
    }

    /** With no track, nothing changes; otherwise the modal opens on a copy of it. */
    method OpenEditModal(track: Option<Track>)
      modifies this
      ensures track.None? ==> unchanged(this)
      ensures track.Some? ==>
        showModal && editingTrack == track && formError == "" && !formLoading &&
        IsEditing() && ModalTitle() == EditTitle
    {
      if track.None? {
        return;
      }
      editingTrack := Some(track.value);
      formError := "";
      formLoading := false;
      showModal := true;
    }

    /** Closes whatever the state, loading or not. */
    method CloseModal()
      modifies this
      ensures IsClosed()
    {
      showModal := false;
      editingTrack := None;
      formError := "";
      formLoading := false;
    }

    method ResetModal()
      modifies this
      ensures IsClosed()
    {
      showModal := false;
      editingTrack := None;
      formError := "";
      formLoading := false;
    }

    method SetFormLoading(loading: bool)
      modifies this
      ensures formLoading == loading
      ensures showModal == old(showModal) && editingTrack == old(editingTrack) && formError == old(formError)
    {
      formLoading := loading;
    }

    method SetFormError(error: string)
      modifies this
      ensures formError == error
      ensures showModal == old(showModal) && editingTrack == old(editingTrack) && formLoading == old(formLoading)
    {
      formError := error;
    }

    method ClearFormError()
      modifies this
      ensures formError == ""
      ensures showModal == old(showModal) && editingTrack == old(editingTrack) && formLoading == old(formLoading)
    {
      formError := "";
    }

    /**
     * Runs the submit handler with the loading flag set: on success the modal closes;
     * on a throw it stays as it was with the thrown message; loading ends false either way.
     */
    method HandleFormSubmit(outcome: SubmitOutcome)
      modifies this
      ensures !formLoading && CanCloseModal()
      ensures outcome.Resolved? ==> IsClosed()
      ensures outcome.Threw? ==>
        formError == outcome.message && showModal == old(showModal) && editingTrack == old(editingTrack)
    {
      SetFormLoading(true);
      ClearFormError();
      match outcome {
        case Resolved =>
          CloseModal();
        case Threw(message) =>
          SetFormError(message);
      }
      SetFormLoading(false);
    }
  }

  /** A failed edit leaves the modal open on the same copy, with the handler's message. */
  method FailedEditStaysOpen(track: Track, message: string)
    returns (shown: bool, editing: Option<Track>, error: string, title: string, canClose: bool)
    ensures shown && editing == Some(track) && error == message
    ensures title == EditTitle && canClose
  {
    var modal := new TrackModal();
    modal.OpenEditModal(Some(track));
    modal.HandleFormSubmit(Threw(message));
    shown, editing, error := modal.showModal, modal.editingTrack, modal.formError;
    title, canClose := modal.ModalTitle(), modal.CanCloseModal();
  }
}
