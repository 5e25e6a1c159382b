/** The stand-alone phase 1 API (api/phase1.py): its own form shape (a
    product experience names a brand; there is no budget) and a module-level
    list of submitted forms. */
module Phase1Api {
  import opened Wrappers
  import Forms
  import opened FormProcessing

  datatype ProductExperience = ProductExperience(brand: string, experience: Forms.Experience, reason: Option<string>)

  datatype FormData = FormData(
    skinType: seq<Forms.SkinType>,
    skinConditions: seq<string>,
    allergies: seq<string>,
    productExperiences: seq<ProductExperience>,
    goals: seq<string>,
    customGoal: Option<string>)

  /** The module's `submitted_forms` list. */
  class FormList {
    var submittedForms: seq<FormData>

    constructor ()
      ensures submittedForms == []
    {
      submittedForms := [];
    }

    /** POST /submitform: append the form; its index is the number of forms
        submitted before it. */
    method SubmitForm(data: FormData) returns (r: Submission<FormData>)
      modifies this
      ensures submittedForms == old(submittedForms) + [data]
      ensures r == Submission(Submitted, |old(submittedForms)|, data)
      ensures submittedForms[r.formIndex] == data
    {
      submittedForms := submittedForms + [data];
      r := Submission(Submitted, |submittedForms| - 1, data);
    }

    /** GET /forms: all forms, in submission order. */
    method ListForms() returns (forms: seq<FormData>)
      ensures forms == submittedForms
    {
      forms := submittedForms;
    }
  }
}
