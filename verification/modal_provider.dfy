/**
 * The modal context of `src/providers/ModalProvider.tsx`: whether the status
 * modal is open and the email and status it was opened with.
 */
module ModalProvider {
  import opened Wrappers

  const OutsideProviderMessage: string := "useModal must be used within a ModalProvider"

  /** What the provider passes to the status modal. */
  datatype ModalProps = ModalProps(isOpen: bool, email: string, currentStatus: string)

  class Provider {
    var isUpdateStatusOpen: bool
    var email: string
    var status: string

    /** Closed, with empty email and status. */
    constructor ()
      ensures !isUpdateStatusOpen && email == "" && status == ""
      ensures Props() == ModalProps(false, "", "")
    {
      isUpdateStatusOpen := false;
      email := "";
      status := "";
    }

    /** `openUpdateStatus(email, currentStatus)`: store both, then open. */
    method OpenUpdateStatus(email: string, currentStatus: string)
      modifies this
      ensures isUpdateStatusOpen && this.email == email && status == currentStatus
      ensures Props() == ModalProps(true, email, currentStatus)
    {
      this.email := email;
      status := currentStatus;
      isUpdateStatusOpen := true;
    }

    /** The modal's `onClose`: close, keeping the stored data. */
    method OnClose()
      modifies this
      ensures !isUpdateStatusOpen && email == old(email) && status == old(status)
      ensures Props() == old(Props()).(isOpen := false)
    {
      isUpdateStatusOpen := false;
    }

    /** The props of the rendered modal: always the stored email and status. */
    function Props(): ModalProps
      reads this
    {
      ModalProps(isUpdateStatusOpen, email, status)
    }
  }

  /** `useModal`: the context value, or the error thrown outside a provider. */
  function UseModal<C>(context: Option<C>): (r: Result<C, string>)
    ensures r.Err? <==> context.None?
    ensures r.Err? ==> r.error == OutsideProviderMessage
    ensures r.Ok? ==> r.value == context.value
  {
    match context
    case None => Err(OutsideProviderMessage)
    case Some(c) => Ok(c)
  }
}
