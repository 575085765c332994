/**
 * The confirm-then-report dialog of the users, companies and company
 * job-post pages: one dialog first asks whether to delete the selected row
 * (İptal / Sil) and then reports the result (Tamam).
 */
module ConfirmDialog {
  import opened Common

  /** Which action buttons the dialog shows besides İptal. */
  datatype Buttons = Buttons(delete: bool, ok: bool)

  /**
   * Sil is shown when a row is selected and the dialog holds the question;
   * Tamam whenever it holds anything else.
   */
  function ButtonsFor(selected: Option<string>, message: string, prompt: string): (r: Buttons)
    ensures !(r.delete && r.ok)
    ensures r.delete || r.ok || (message == prompt && !Present(selected))
    ensures r.ok <==> message != prompt
  {
    Buttons(Present(selected) && message == prompt, message != prompt)
  }
}
