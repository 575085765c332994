/**
 * components/custom/SuperAdminComponents/StatusActions.tsx: the approve /
 * reject / set-pending buttons of an admin list row and the confirmation
 * dialog in front of them.
 */
module StatusActions {
  import opened Common

  /** The three application statuses; their numeric codes play no part here. */
  datatype Status = Pending | Approved | Rejected

  /** The actions offered for an item (lines 53-99): a pending item cannot be set to pending again. */
  function OfferedActions(current: Status): (r: seq<Status>)
    ensures Approved in r && Rejected in r
    ensures Pending in r <==> current != Pending
    ensures forall i, j :: 0 <= i < j < |r| ==> r[i] != r[j]
  {
    if current == Pending then [Approved, Rejected] else [Approved, Rejected, Pending]
  }

  /** The dialog title (lines 106-112); no action falls to the "pending" text. */
  function Title(action: Option<Status>): (r: string)
    ensures action == Some(Approved) ==> r == "Bu işi onaylamak istediğinize emin misiniz?"
    ensures action == Some(Rejected) ==> r == "Bu işi reddetmek istediğinize emin misiniz?"
    ensures action != Some(Approved) && action != Some(Rejected) ==>
              r == "Bu işi beklemeye almak istediğinize emin misiniz?"
  {
    if action == Some(Approved) then "Bu işi onaylamak istediğinize emin misiniz?"
    else if action == Some(Rejected) then "Bu işi reddetmek istediğinize emin misiniz?"
    else "Bu işi beklemeye almak istediğinize emin misiniz?"
  }

  /** The confirm button's label (lines 128-132), in the same three branches. */
  function ConfirmLabel(action: Option<Status>): (r: string)
    ensures action == Some(Approved) ==> r == "Onayla"
    ensures action == Some(Rejected) ==> r == "Reddet"
    ensures action != Some(Approved) && action != Some(Rejected) ==> r == "Beklemeye Al"
  {
    if action == Some(Approved) then "Onayla"
    else if action == Some(Rejected) then "Reddet"
    else "Beklemeye Al"
  }

  /** The title and the label pick the same branch: each label goes with one title. */
  lemma TitleMatchesLabel(a: Option<Status>, b: Option<Status>)
    ensures ConfirmLabel(a) == ConfirmLabel(b) <==> Title(a) == Title(b)
    ensures ConfirmLabel(None) == ConfirmLabel(Some(Pending))
  {
  }

  class ActionDialog {
    const current: Status
    var dialogOpen: bool
    var dialogAction: Option<Status>
    /** The statuses passed to onActionClick, in order. */
    var reported: seq<Status>

    /** The initial state (lines 28-31): closed, no action. */
    constructor (current: Status)
      ensures this.current == current
      ensures !dialogOpen && dialogAction == None && reported == []
    {
      this.current := current;
      dialogOpen := false;
      dialogAction := None;
      reported := [];
    }

    /** handleDialogOpen (lines 33-36), reachable only through an offered action. */
    method Open(action: Status)
      requires action in OfferedActions(current)
      modifies this`dialogAction, this`dialogOpen
      ensures dialogAction == Some(action) && dialogOpen
    {
      dialogAction := Some(action);
      dialogOpen := true;
    }

    /**
     * handleDialogConfirm (lines 38-44): report the recorded action once, if
     * there is one, then close and forget it.
     */
    method Confirm()
      modifies this`dialogAction, this`dialogOpen, this`reported
      ensures old(dialogAction).Some? ==> reported == old(reported) + [old(dialogAction).value]
      ensures old(dialogAction).None? ==> reported == old(reported)
      ensures !dialogOpen && dialogAction == None
    {
      if dialogAction.Some? {
        reported := reported + [dialogAction.value];
      }
      dialogOpen := false;
      dialogAction := None;
    }

    /** handleDialogCancel (lines 46-49): close and forget, reporting nothing. */
    method Cancel()
      modifies this`dialogAction, this`dialogOpen
      ensures !dialogOpen && dialogAction == None
    {
      dialogOpen := false;
      dialogAction := None;
    }
  }

  /** Opening on an offered action and confirming reports exactly that action. */
  method OpenThenConfirm(d: ActionDialog, action: Status)
    requires action in OfferedActions(d.current)
    modifies d
    ensures d.reported == old(d.reported) + [action]
    ensures !d.dialogOpen && d.dialogAction == None
  {
    d.Open(action);
    d.Confirm();
  }

  /** Opening and cancelling reports nothing. */
  method OpenThenCancel(d: ActionDialog, action: Status)
    requires action in OfferedActions(d.current)
    modifies d
    ensures d.reported == old(d.reported)
    ensures !d.dialogOpen && d.dialogAction == None
  {
    d.Open(action);
    d.Cancel();
  }
}
