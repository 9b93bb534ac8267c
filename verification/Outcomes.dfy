/** Result types shared by every component of the model. */
module Outcomes {

  datatype Option<+T> = None | Some(value: T)

  /** `Review` stands for the exception that asks an operator to look
      (`ReconciliationRequired`, `ReviewRequired`); its message is not modelled. */
  datatype Outcome<+T> = Ok(value: T) | Review
}
