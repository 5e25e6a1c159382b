/** Phase 1 form processing (app/services/form_processing_service.py): the
    service keeps every submitted form, in memory, in submission order. */
module FormProcessing {
  import Forms

  /** What submit_form returns: a fixed message, the position the form was
      stored at, and the form itself. */
  datatype Submission<F> = Submission(message: string, formIndex: nat, storedData: F)

  const Submitted: string := "Form submitted successfully"

  class Phase1Service {
    var submittedForms: seq<Forms.FormData>

    constructor ()
      ensures submittedForms == []
    {
      submittedForms := [];
    }

    /** submit_form: append the form; its index is the number of forms
        submitted before it. */
    method SubmitForm(data: Forms.FormData) returns (r: Submission<Forms.FormData>)
      modifies this
      ensures submittedForms == old(submittedForms) + [data]
      ensures r == Submission(Submitted, |old(submittedForms)|, data)
      ensures submittedForms[r.formIndex] == data
    {
      submittedForms := submittedForms + [data];
      r := Submission(Submitted, |submittedForms| - 1, data);
    }

    /** list_forms: every form submitted so far, oldest first. */
    method ListForms() returns (forms: seq<Forms.FormData>)
      ensures forms == submittedForms
    {
      forms := submittedForms;
    }
  }
}
