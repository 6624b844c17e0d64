/**
 * What the pages hand to the mail service: the sender name both pages start
 * with and the message itself.
 */
module Mail {

  /** The sender name the approval and student-account pages start with. */
  const SchoolName: string := "Sto. Nino Formation and Science School"

  /** An e-mail handed to the mail service: recipients, body, sender name. */
  datatype Email = Email(to: string, body: string, sender: string)
}
